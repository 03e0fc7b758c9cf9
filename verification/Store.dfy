/** The store as an object over a directory, with its calls carried out step by step. */
module Store {
  import opened Prelude
  import opened Texts
  import opened Worlds
  import opened Commands
  import opened PolicyRules
  import opened Batch
  import opened Lifetimes
  import opened Canonical
  import opened Coordinator
  import opened Package
  import opened Durable
  import opened Frames
  import opened Recovery
  import opened Storage
  import Replay

  /** The directory: an append persists a prefix; truncation, replacement and removal are atomic. */
  class Volume {
    var disk: Disk

    constructor (disk: Disk)
      ensures this.disk == disk
    {
      this.disk := disk;
    }

    method AppendJournal(data: Bytes, persisted: nat)
      modifies this
      ensures disk == old(disk).(journal := old(disk).journal + First(data, persisted))
    {
      disk := disk.(journal := disk.journal + First(data, persisted));
    }

    method WriteScratch(data: Bytes, persisted: nat)
      modifies this
      ensures disk == old(disk).(scratch := Some(First(data, persisted)))
    {
      disk := disk.(scratch := Some(First(data, persisted)));
    }

    method ReplaceCheckpoint()
      requires disk.scratch.Some?
      modifies this
      ensures disk == old(disk).(checkpoint := old(disk).scratch.value, scratch := None)
    {
      disk := disk.(checkpoint := disk.scratch.value, scratch := None);
    }

    method TruncateJournal(size: nat)
      requires size <= |disk.journal|
      modifies this
      ensures disk == Truncated(old(disk), size)
    {
      disk := disk.(journal := disk.journal[..size]);
    }

    method RemoveScratch()
      modifies this
      ensures disk == old(disk).(scratch := None)
    {
      disk := disk.(scratch := None);
    }
  }

  /** The frame of a package, unless its payload is too large. */
  method MakeFrame(pl: Platform, p: Package) returns (r: Result<Bytes, string>)
    requires Counted(p)
    ensures r == if |PackageBytes(pl, p)| > PACKAGE_LIMIT then Err("BUDGET_EXCEEDED") else Ok(Frame(pl, p))
  {
    hide PackageBytes;
    var payload :- Encode(pl, p);
    r := Ok(FrameBytes(pl, payload, High(p)));
  }

  class Store {
    const volume: Volume
    var package: Package
    var world: World
    var sealed: bool
    ghost var durable: Package
    ghost var durableWorld: Snapshot

    ghost function Now(): Memory
      reads this, world
    {
      Memory(package, world.state, sealed)
    }

    /** What the directory holds, and that memory agrees with it. */
    ghost predicate Valid(pl: Platform)
      reads this, world, volume
    {
      Agrees(pl, Now(), volume.disk, durable, durableWorld)
    }

    constructor (volume: Volume, package: Package, world: World, ghost durable: Package, ghost durableWorld: Snapshot)
      ensures this.volume == volume && this.package == package && this.world == world && !sealed
      ensures this.durable == durable && this.durableWorld == durableWorld
    {
      this.volume, this.package, this.world, sealed := volume, package, world, false;
      this.durable, this.durableWorld := durable, durableWorld;
    }

    /** Looks a sequence up among the retained receipts; nothing changes. */
    method LookUp(pl: Platform, sequence: nat) returns (r: StoreResult)
      requires Valid(pl)
      ensures Retaining(Now()) && r == Lookup(Now(), sequence)
    {
      hide Agrees, Sound;
      AgreesRetains(pl, Now(), volume.disk, durable, durableWorld);
      if sealed {
        return Plain(Memory(package, world.state, sealed), "RECOVERY_REQUIRED");
      }
      if sequence < Low(package) {
        return Plain(Memory(package, world.state, sealed), "REQUIRES_RESYNC");
      }
      if sequence > High(package) {
        return Plain(Memory(package, world.state, sealed), "NOT_FOUND");
      }
      r := Plain(Memory(package, world.state, sealed), "").(
        receipt := Some(package.receipts[sequence - Low(package)]), replayed := true);
    }

    /** Applies one command, and answers only once it is durable. */
    method ApplyAwaitDurable(pl: Platform, e: Envelope, tick: u64, fault: Fault) returns (r: StoreResult)
      requires Lawful(pl) && Valid(pl)
      modifies this, volume, world
      ensures Valid(pl) && world == old(world)
      ensures Retaining(old(Now())) && High(old(package)) + 1 < U64_LIMIT
      ensures
        var o := Applied(pl, old(Now()), old(volume.disk), e, tick, fault);
        Now() == o.memory && volume.disk == o.disk && r == o.result
      ensures Extends(old(durable), durable) && High(durable) <= High(old(durable)) + 1
      ensures r.code == "" ==> durable == package
    {
      hide Agrees, Sound, Stage, CanonicalBytes, Frame, PackageBytes, Extended, ValidEnvelope, BoundedCommand, First;
      ghost var m, d := Now(), volume.disk;
      AgreesRetains(pl, m, d, durable, durableWorld);
      durable, durableWorld := AppliedAgrees(pl, m, d, durable, durableWorld, e, tick, fault);
      if sealed {
        return Plain(Memory(package, world.state, sealed), "RECOVERY_REQUIRED");
      }
      if !BoundedCommand(e) {
        return Plain(Memory(package, world.state, sealed), "BUDGET_EXCEEDED");
      }
      var text := Serialize(pl, e);
      if text.None? {
        return Plain(Memory(package, world.state, sealed), "INVALID_SCHEMA");
      }
      if |text.value| > COMMAND_LIMIT {
        return Plain(Memory(package, world.state, sealed), "BUDGET_EXCEEDED");
      }
      if e.epoch != package.epoch {
        return Plain(Memory(package, world.state, sealed), "EPOCH_MISMATCH");
      }
      if e.sequence < Low(package) {
        return Plain(Memory(package, world.state, sealed), "REQUIRES_RESYNC");
      }
      if e.sequence <= High(package) {
        if text.value != package.entries[e.sequence - 1].payload {
          return Plain(Memory(package, world.state, sealed), "IDEMPOTENCY_CONFLICT");
        }
        if fault.BeforeAck? {
          sealed := true;
          return Plain(Memory(package, world.state, sealed), "OUTCOME_UNKNOWN");
        }
        return Lookup(Memory(package, world.state, sealed), e.sequence);
      }
      if e.sequence != High(package) + 1 {
        return Plain(Memory(package, world.state, sealed), "SEQUENCE_GAP");
      }
      if High(package) >= COMMIT_LIMIT {
        return Plain(Memory(package, world.state, sealed), "BUDGET_EXCEEDED");
      }
      if package.entries != [] && tick < package.entries[|package.entries| - 1].tick {
        return Plain(Memory(package, world.state, sealed), "INVALID_TICK");
      }
      r := Commit(pl, e, tick, fault);
    }

    /** Stages the batch, prepares its frame, appends it in two flushed parts and publishes. */
    method Commit(pl: Platform, e: Envelope, tick: u64, fault: Fault) returns (r: StoreResult)
      requires Lawful(pl) && Sound(pl, package, world.state) && !sealed && High(package) < COMMIT_LIMIT
      requires Serialize(pl, e).Some? && e.sequence == High(package) + 1 && Unacceptable(pl, Now(), e).None?
      requires Storage.Refusal(pl, package, e, tick).None?
      modifies this`package, this`sealed, volume, world
      ensures world == old(world)
      ensures Retaining(old(Now())) && High(old(package)) + 1 < U64_LIMIT
      ensures
        var o := Applied(pl, old(Now()), old(volume.disk), e, tick, fault);
        Now() == o.memory && volume.disk == o.disk && r == o.result
    {
      hide Sound, Stage, CanonicalBytes, Frame, PackageBytes, Extended, ValidEnvelope, BoundedCommand, CommittedReceipt, Committed, First, Evolves, NewIdentities;
      SoundRetains(pl, Now());
      SoundCommitted(pl, package, world.state);
      var staged := StageBatch(pl, world.state, e, None, None);
      if staged.Err? {
        return Plain(Memory(package, world.state, sealed), staged.error.code).(
          receipt := Some(RejectedReceipt(e, world.state.revision, staged.error, false)));
      }
      var q := Extended(pl, package, e, tick, staged.value);
      LastCheckpoint(pl, package, e, tick, staged.value);
      var checkpoint := Write(pl, staged.value.after);
      if |checkpoint| > Replay.CHECKPOINT_LIMIT {
        return Plain(Memory(package, world.state, sealed), "BUDGET_EXCEEDED");
      }
      ExtendedSound(pl, Now(), e, tick);
      SoundCounted(pl, q, staged.value.after);
      var frame := MakeFrame(pl, q);
      if frame.Err? {
        return Plain(Memory(package, world.state, sealed), frame.error);
      }
      if !QuotaAllows(volume.disk, q.config, |frame.value|) {
        return Plain(Memory(package, world.state, sealed), "QUOTA_EXCEEDED");
      }
      var bytes := frame.value;
      FrameNonEmpty(pl, q);
      var body, mark := bytes[..|bytes| - 40], bytes[|bytes| - 40..];
      ghost var before := volume.disk;
      if fault.InAppend? {
        AppendInParts(before.journal, bytes, fault.persisted);
        volume.AppendJournal(body, fault.persisted);
        if fault.persisted > |body| {
          volume.AppendJournal(mark, fault.persisted - |body|);
        }
        sealed := true;
        return Plain(Memory(package, world.state, sealed), "OUTCOME_UNKNOWN");
      }
      volume.AppendJournal(body, |body|);
      volume.AppendJournal(mark, |mark|);
      AppendInParts(before.journal, bytes, |bytes|);
      world.state := staged.value.after;
      package := q;
      if fault.BeforeAck? {
        sealed := true;
        return Plain(Memory(package, world.state, sealed), "OUTCOME_UNKNOWN");
      }
      r := Plain(Memory(package, world.state, sealed), "").(
        receipt := Some(CommittedReceipt(e, staged.value).(durability := DURABLE)));
    }

    /** Writes and selects a new checkpoint, then reclaims the journal. */
    method Compact(pl: Platform, fault: Fault) returns (r: StoreResult)
      requires Lawful(pl) && Valid(pl)
      modifies this`sealed, volume
      ensures Valid(pl)
      ensures
        var o := Compacted(pl, old(Now()), old(volume.disk), fault);
        Now() == o.memory && volume.disk == o.disk && r == o.result
    {
      hide Agrees, Sound, Frame, PackageBytes;
      ghost var m, d := Now(), volume.disk;
      CompactedAgrees(pl, m, d, durable, durableWorld, fault);
      if sealed {
        return Plain(Memory(package, world.state, sealed), "RECOVERY_REQUIRED");
      }
      AgreesCounted(pl, m, d, durable, durableWorld);
      var frame := MakeFrame(pl, package);
      if frame.Err? {
        return Plain(Memory(package, world.state, sealed), frame.error);
      }
      if !QuotaAllows(volume.disk, package.config, |frame.value|) {
        return Plain(Memory(package, world.state, sealed), "QUOTA_EXCEEDED");
      }
      volume.WriteScratch(frame.value, if fault.InScratch? then fault.persisted else |frame.value|);
      if fault.InScratch? {
        sealed := true;
        return Plain(Memory(package, world.state, sealed), "OUTCOME_UNKNOWN");
      }
      volume.ReplaceCheckpoint();
      if fault.AfterReplace? {
        sealed := true;
        return Plain(Memory(package, world.state, sealed), "OUTCOME_UNKNOWN");
      }
      volume.TruncateJournal(0);
      if fault.AfterReclaim? {
        sealed := true;
        return Plain(Memory(package, world.state, sealed), "OUTCOME_UNKNOWN");
      }
      r := Plain(Memory(package, world.state, sealed), "");
    }
  }

  lemma AgreesRetains(pl: Platform, m: Memory, d: Disk, p: Package, w: Snapshot)
    requires Agrees(pl, m, d, p, w)
    ensures Sound(pl, m.package, m.world) && Retaining(m) && High(m.package) <= COMMIT_LIMIT
  {
    hide Sound, Holds, HoldsClean;
    SoundRetains(pl, m);
  }

  lemma SoundCounted(pl: Platform, p: Package, w: Snapshot)
    requires Sound(pl, p, w)
    ensures Counted(p)
  {
    hide EntriesValid, Replay.Tracks, HexText;
    assert forall i :: 0 <= i < |p.entries| ==> EntryFits(p.entries[i]);
    assert forall i :: 0 <= i < |p.receipts| ==> ReceiptFits(p.receipts[i]);
  }

  lemma AgreesCounted(pl: Platform, m: Memory, d: Disk, p: Package, w: Snapshot)
    requires Agrees(pl, m, d, p, w)
    ensures Counted(m.package)
  {
    hide Sound, Holds, HoldsClean, Counted;
    SoundCounted(pl, m.package, m.world);
  }

  /** Two appends in a row persist a prefix of the whole. */
  lemma AppendInParts(journal: Bytes, bytes: Bytes, n: nat)
    requires |bytes| >= 40
    ensures
      var (body, mark) := (bytes[..|bytes| - 40], bytes[|bytes| - 40..]);
      && (n > |body| ==> journal + First(body, n) + First(mark, n - |body|) == journal + First(bytes, n))
      && (n <= |body| ==> journal + First(body, n) == journal + First(bytes, n))
      && journal + First(body, |body|) + First(mark, |mark|) == journal + bytes
  {
  }

  /** Opens a directory: validates the checkpoint and every journal frame, and only then repairs. */
  method Open(pl: Platform, volume: Volume, ghost durable: Package, ghost durableWorld: Snapshot)
    returns (store: Store?, error: string)
    modifies volume
    ensures match Opening(pl, old(volume.disk))
      case Ok(o) =>
        && store != null && fresh(store) && fresh(store.world) && store.volume == volume
        && store.Now() == Memory(o.package, o.world, false)
        && volume.disk == Repaired(old(volume.disk), o.kept)
        && (Lawful(pl) && Holds(pl, old(volume.disk), durable, durableWorld) ==> store.Valid(pl))
      case Err(code) => store == null && error == code && volume.disk == old(volume.disk)
  {
    hide ReadFrame, Decoded, ScanFrame, Lawful, Sound, Layout, Frame;
    var d := volume.disk;
    store := null;
    var selected, live := ReadCheckpoint(pl, d.checkpoint);
    if selected.None? || |d.journal| > JOURNAL_LIMIT {
      return null, "CORRUPT_STORE";
    }
    ghost var first := Scan(None, selected.value, live.state);
    var prior: Option<Package>, package, at := None, selected.value, 0;
    while at < |d.journal|
      invariant at <= |d.journal| && fresh(live) && volume.disk == d
      invariant match ScanJournal(pl, d.journal[at..], selected.value, Scan(prior, package, live.state))
        case Some((scan, kept)) => ScanJournal(pl, d.journal, selected.value, first) == Some((scan, at + kept))
        case None => ScanJournal(pl, d.journal, selected.value, first) == None
    {
      var found := ReadFrame(pl, d.journal[at..]);
      if found.Corrupt? {
        return null, "CORRUPT_STORE";
      }
      if found.Torn? {
        break;
      }
      var next, w := CheckFrame(pl, selected.value, prior, package, live, found);
      if next.None? {
        return null, "CORRUPT_STORE";
      }
      assert d.journal[at..][found.size..] == d.journal[at + found.size..];
      prior, package, live, at := next.value.0, next.value.1, w, at + found.size;
    }
    assert at == |d.journal| ==> d.journal[at..] == [];
    assert ScanJournal(pl, d.journal, selected.value, first) == Some((Scan(prior, package, live.state), at));
    if Used(d) > package.config.quota || Used(d) > MAXIMUM_QUOTA {
      return null, "QUOTA_EXCEEDED";
    }
    if d.scratch.Some? && |d.scratch.value| > FRAME_LIMIT {
      return null, "CORRUPT_STORE";
    }
    if at < |d.journal| {
      volume.TruncateJournal(at);
    }
    if d.scratch.Some? {
      volume.RemoveScratch();
    }
    assert d.journal[..at] == if at < |d.journal| then volume.disk.journal else d.journal;
    store := new Store(volume, package, live, durable, durableWorld);
    error := "";
    if Lawful(pl) && Holds(pl, d, durable, durableWorld) {
      OpensTo(pl, d, durable, durableWorld);
      CleanAgrees(pl, volume.disk, durable, durableWorld);
    }
  }

  lemma CleanAgrees(pl: Platform, d: Disk, p: Package, w: Snapshot)
    requires HoldsClean(pl, d, p, w)
    ensures Agrees(pl, Memory(p, w, false), d, p, w)
  {
    hide Sound, Layout;
  }

  method ReadCheckpoint(pl: Platform, checkpoint: Bytes) returns (p: Option<Package>, world: World?)
    ensures match Selected(pl, checkpoint)
      case Some((q, w)) => p == Some(q) && world != null && fresh(world) && world.state == w
      case None => p == None
  {
    hide ReadFrame, Decoded;
    p, world := None, null;
    if |checkpoint| > FRAME_LIMIT {
      return;
    }
    var found := ReadFrame(pl, checkpoint);
    if !found.Whole? || found.size != |checkpoint| {
      return;
    }
    p, world := Decode(pl, found.payload);
    if p.Some? && High(p.value) != found.high {
      p := None;
    }
  }

  /** One turn of the journal loop, on a complete frame. */
  method CheckFrame(pl: Platform, selected: Package, prior: Option<Package>, package: Package, live: World, found: Found)
    returns (next: Option<(Option<Package>, Package)>, world: World)
    requires found.Whole?
    ensures world == live || fresh(world)
    ensures match ScanFrame(pl, selected, Scan(prior, package, live.state), found)
      case Some(s) => next == Some((s.prior, s.package)) && world.state == s.world
      case None => next == None
  {
    hide Decoded, Extends;
    next, world := None, live;
    var c, w := Decode(pl, found.payload);
    if c.None? {
      return;
    }
    var q := c.value;
    if found.high != High(q) || found.high == 0 {
      return;
    }
    if prior.Some? {
      if High(q) != High(prior.value) + 1 || !Extends(prior.value, q) {
        return;
      }
    } else if High(q) > High(selected) + 1 {
      return;
    }
    if High(q) <= High(selected) {
      if !Extends(q, selected) {
        return;
      }
    } else if High(q) != High(package) + 1 || !Extends(package, q) {
      return;
    }
    if High(q) > High(package) {
      return Some((Some(q), q)), w;
    }
    next := Some((Some(q), package));
  }
}
