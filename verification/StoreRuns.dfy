/** Whole runs of a store: calls, crashes and reopenings in any order, with a failure at any point. */
module StoreRuns {
  import opened Prelude
  import opened Worlds
  import opened Commands
  import opened PolicyRules
  import opened Batch
  import opened Lifetimes
  import opened Canonical
  import opened Coordinator
  import opened Package
  import opened Durable
  import opened Frames
  import opened Recovery
  import opened Storage
  import Replay
  import Texts

  /** The process may die after any of its calls; opening may itself be stopped between its two repairs. */
  datatype Event =
    | Apply(e: Envelope, tick: u64, fault: Fault)
    | Compaction(fault: Fault)
    | Crash
    | Open(stopped: bool)

  /** The directory and the live store, with what has been acknowledged so far: by the committed
      receipt of a call, or by the package an opening returned. `flight` is the last command sent. */
  datatype Machine = Machine(disk: Disk, memory: Option<Memory>, acknowledged: seq<Entry>, flight: Option<Envelope>)

  predicate Callable(m: Memory) {
    Retaining(m) && High(m.package) + 1 < U64_LIMIT
  }

  /** The caller has a receipt that says the command is committed. */
  predicate Answered(r: StoreResult) {
    r.receipt.Some? && r.receipt.value.status == COMMITTED
  }

  function Next(pl: Platform, s: Machine, event: Event): Machine {
    match event
    case Apply(e, tick, fault) =>
      if s.memory.None? || !Callable(s.memory.value) then s
      else
        var o := Applied(pl, s.memory.value, s.disk, e, tick, fault);
        Machine(o.disk, Some(o.memory),
                if Answered(o.result) then o.memory.package.entries else s.acknowledged,
                if s.memory.value.sealed then s.flight else Some(e))
    case Compaction(fault) =>
      if s.memory.None? then s
      else
        var o := Compacted(pl, s.memory.value, s.disk, fault);
        s.(disk := o.disk, memory := Some(o.memory))
    case Crash => s.(memory := None)
    case Open(stopped) =>
      if s.memory.Some? then s
      else
        match Opening(pl, s.disk)
        case Err(_) => s
        case Ok(o) =>
          if stopped then s.(disk := Truncated(s.disk, o.kept))
          else Machine(Repaired(s.disk, o.kept), Some(Memory(o.package, o.world, false)), o.package.entries, s.flight)
  }

  function Run(pl: Platform, s: Machine, events: seq<Event>): Machine
    decreases |events|
  {
    if events == [] then s else Run(pl, Next(pl, s, events[0]), events[1..])
  }

  /** A newly created store with an empty world. */
  predicate Creatable(pl: Platform, c: Config, epoch: Texts.Text) {
    var p := Package(c, epoch, [], []);
    && ValidConfig(c) && ValidWorld(c.worldId, c.maxSlots) && |epoch| == 64 && Texts.HexText(epoch)
    && |Frame(pl, p)| <= c.quota
  }

  function Created(pl: Platform, c: Config, epoch: Texts.Text): Machine {
    var p := Package(c, epoch, [], []);
    Machine(Disk(Frame(pl, p), [], None), Some(Memory(p, Fresh(c.worldId, c.seed, c.maxSlots), false)), [], None)
  }

  /** `entries` are the acknowledged commits, or those and the one in flight. */
  predicate AtMostOneMore(pl: Platform, s: Machine, entries: seq<Entry>) {
    || entries == s.acknowledged
    || (&& s.flight.Some? && s.acknowledged < entries && |entries| == |s.acknowledged| + 1
        && s.flight.value.sequence == |entries| && entries[|entries| - 1].payload == pl.text(s.flight.value))
  }

  /** What every run keeps: the directory holds a sound package of the acknowledged commits and at most
      the one in flight, and a live store that is not sealed shows exactly the acknowledged ones. */
  ghost predicate Keeps(pl: Platform, s: Machine, c: Config, epoch: Texts.Text, p: Package, w: Snapshot) {
    && p.config == c && p.epoch == epoch
    && AtMostOneMore(pl, s, p.entries)
    && (match s.memory
        case None => Holds(pl, s.disk, p, w)
        case Some(m) => Agrees(pl, m, s.disk, p, w) && (!m.sealed ==> p.entries == s.acknowledged))
  }

  lemma CreatedKeeps(pl: Platform, c: Config, epoch: Texts.Text)
    requires Creatable(pl, c, epoch)
    ensures Keeps(pl, Created(pl, c, epoch), c, epoch, Package(c, epoch, [], []), Fresh(c.worldId, c.seed, c.maxSlots))
  {
    hide Frame, Committed, Texts.Hex;
    var p, w := Package(c, epoch, [], []), Fresh(c.worldId, c.seed, c.maxSlots);
    FreshCommitted(c.worldId, c.seed, c.maxSlots);
    assert RecordsOf(pl, p.entries) == [];
    assert Sound(pl, p, w);
    assert Cut(pl, p, 0) == p;
    assert Layout(pl, Created(pl, c, epoch).disk, p, 0, 0, []);
  }

  /** A live store never shows more than the directory holds, and can always be called. */
  lemma KeepsCallable(pl: Platform, s: Machine, c: Config, epoch: Texts.Text, p: Package, w: Snapshot)
    requires Keeps(pl, s, c, epoch, p, w)
    ensures s.memory.Some? ==> Callable(s.memory.value)
    ensures Sound(pl, p, w)
    ensures Lawful(pl) ==> Holds(pl, s.disk, p, w)
  {
    hide Sound, Layout, TornTail;
    if s.memory.Some? {
      SoundRetains(pl, s.memory.value);
      if !s.memory.value.sealed {
        CleanHolds(pl, s.disk, p, w);
      }
    }
  }

  /** One event keeps it; the package only ever grows, and only by one commit at a time. */
  lemma NextKeeps(pl: Platform, s: Machine, event: Event, c: Config, epoch: Texts.Text, p: Package, w: Snapshot)
    returns (q: Package, v: Snapshot)
    requires Lawful(pl) && Keeps(pl, s, c, epoch, p, w)
    ensures Keeps(pl, Next(pl, s, event), c, epoch, q, v)
    ensures p.entries <= q.entries && |q.entries| <= |p.entries| + 1
    ensures s.acknowledged <= Next(pl, s, event).acknowledged
  {
    hide Sound, Holds, HoldsClean, Applied, Compacted, Opening, Truncated, Repaired;
    q, v := p, w;
    KeepsCallable(pl, s, c, epoch, p, w);
    match event
    case Apply(e, tick, fault) =>
      if s.memory.Some? {
        AppliedUnseals(pl, s.memory.value, s.disk, e, tick, fault);
        q, v := AppliedAgrees(pl, s.memory.value, s.disk, p, w, e, tick, fault);
        AppliedKeeps(pl, s, e, tick, fault, c, epoch, p, w, q, v);
      }
    case Compaction(fault) =>
      if s.memory.Some? {
        CompactedAgrees(pl, s.memory.value, s.disk, p, w, fault);
        CompactedSeals(pl, s.memory.value, s.disk, fault);
      }
    case Crash =>
    case Open(stopped) =>
      if s.memory.None? {
        OpensTo(pl, s.disk, p, w);
        if !stopped {
          var kept := Opening(pl, s.disk).value.kept;
          OpenedAgrees(pl, Repaired(s.disk, kept), p, w);
        }
      }
  }

  lemma OpenedAgrees(pl: Platform, d: Disk, p: Package, w: Snapshot)
    requires HoldsClean(pl, d, p, w)
    ensures Agrees(pl, Memory(p, w, false), d, p, w)
  {
    hide Sound, Layout;
  }

  /** A sealed store stays sealed, and a committed receipt leaves the store unsealed. */
  lemma AppliedUnseals(pl: Platform, m: Memory, d: Disk, e: Envelope, tick: u64, fault: Fault)
    requires Callable(m)
    ensures
      var o := Applied(pl, m, d, e, tick, fault);
      && (m.sealed ==> o.memory == m && o.disk == d && !Answered(o.result))
      && (Answered(o.result) ==> !o.memory.sealed)
      && (!Answered(o.result) && !o.memory.sealed ==> o.memory == m && o.disk == d)
  {
    hide Stage, CanonicalBytes, BoundedCommand, Frame, PackageBytes, Extended, Serialize;
  }

  lemma CompactedSeals(pl: Platform, m: Memory, d: Disk, fault: Fault)
    ensures
      var o := Compacted(pl, m, d, fault);
      m.sealed ==> o.memory.sealed
  {
  }

  lemma AppliedKeeps(pl: Platform, s: Machine, e: Envelope, tick: u64, fault: Fault, c: Config, epoch: Texts.Text,
                     p: Package, w: Snapshot, q: Package, v: Snapshot)
    requires Keeps(pl, s, c, epoch, p, w) && s.memory.Some? && Callable(s.memory.value)
    requires
      var m := s.memory.value;
      var o := Applied(pl, m, s.disk, e, tick, fault);
      && Agrees(pl, o.memory, o.disk, q, v)
      && Extends(p, q) && High(q) <= High(p) + 1
      && (m.sealed ==> q == p && o.memory == m && o.disk == s.disk && !Answered(o.result))
      && (q != p ==> High(q) == e.sequence == High(p) + 1 && q.entries[High(p)].payload == pl.text(e))
      && (Answered(o.result) ==> q == o.memory.package && !o.memory.sealed)
      && (!Answered(o.result) && !o.memory.sealed ==> o.memory == m && o.disk == s.disk)
    ensures Keeps(pl, Next(pl, s, Apply(e, tick, fault)), c, epoch, q, v)
    ensures s.acknowledged <= Next(pl, s, Apply(e, tick, fault)).acknowledged
  {
    hide Sound, Holds, HoldsClean, Applied;
    var t := Next(pl, s, Apply(e, tick, fault));
    var m := s.memory.value;
    if !m.sealed {
      assert p.entries == s.acknowledged && m.package == p;
      if q != p {
        assert |q.entries| == |p.entries| + 1 && p.entries < q.entries;
      }
    }
  }

  lemma {:induction false} RunKeeps(pl: Platform, s: Machine, events: seq<Event>, c: Config, epoch: Texts.Text, p: Package, w: Snapshot)
    returns (q: Package, v: Snapshot)
    requires Lawful(pl) && Keeps(pl, s, c, epoch, p, w)
    ensures Keeps(pl, Run(pl, s, events), c, epoch, q, v)
    ensures p.entries <= q.entries && s.acknowledged <= Run(pl, s, events).acknowledged
    decreases |events|
  {
    hide Keeps, Next;
    q, v := p, w;
    if events != [] {
      q, v := NextKeeps(pl, s, events[0], c, epoch, p, w);
      q, v := RunKeeps(pl, Next(pl, s, events[0]), events[1..], c, epoch, q, v);
    }
  }

  lemma {:induction false} RunSplits(pl: Platform, s: Machine, before: seq<Event>, after: seq<Event>)
    ensures Run(pl, s, before + after) == Run(pl, Run(pl, s, before), after)
    decreases |before|
  {
    hide Next;
    if before == [] {
      assert before + after == after;
    } else {
      assert (before + after)[1..] == before[1..] + after;
      RunSplits(pl, Next(pl, s, before[0]), before[1..], after);
    }
  }

  /** After any run of calls, faults, crashes and reopenings, opening succeeds; it finds the acknowledged
      commits and at most the one in flight, with the world they rebuild; and opening again after the
      repair, or after a repair that was itself cut short, finds the same. */
  lemma {:induction false} RunRecovers(pl: Platform, c: Config, epoch: Texts.Text, events: seq<Event>)
    requires Lawful(pl) && Creatable(pl, c, epoch)
    ensures
      var s := Run(pl, Created(pl, c, epoch), events);
      var opening := Opening(pl, s.disk);
      && opening.Ok?
      && opening.value.package.config == c && opening.value.package.epoch == epoch
      && AtMostOneMore(pl, s, opening.value.package.entries)
      && opening.value.world.revision == |opening.value.package.entries|
      && Sound(pl, opening.value.package, opening.value.world)
      && var (p, w, kept) := (opening.value.package, opening.value.world, opening.value.kept);
         var cut, once := Truncated(s.disk, kept), Repaired(s.disk, kept);
         && Opening(pl, once) == Ok(Opened(p, w, |once.journal|)) && Repaired(once, |once.journal|) == once
         && Opening(pl, cut).Ok? && Opening(pl, cut).value.package == p && Opening(pl, cut).value.world == w
  {
    hide Sound, Holds, HoldsClean, Agrees, Next, Run, Creatable, Created, Opening, Truncated, Repaired, AtMostOneMore;
    CreatedKeeps(pl, c, epoch);
    var s := Run(pl, Created(pl, c, epoch), events);
    var p, w := RunKeeps(pl, Created(pl, c, epoch), events, c, epoch,
                         Package(c, epoch, [], []), Fresh(c.worldId, c.seed, c.maxSlots));
    KeepsCallable(pl, s, c, epoch, p, w);
    OpensTo(pl, s.disk, p, w);
    var kept := Opening(pl, s.disk).value.kept;
    OpensAgain(pl, s.disk, p, w, Repaired(s.disk, kept));
    OpensTo(pl, Truncated(s.disk, kept), p, w);
    SoundCommitted(pl, p, w);
  }

  /** A live store that is not sealed shows exactly the acknowledged commits, in the world they rebuild, and
      retains exactly the receipts from the low- to the high-water mark. */
  lemma {:induction false} LiveShowsAcknowledged(pl: Platform, c: Config, epoch: Texts.Text, events: seq<Event>)
    requires Lawful(pl) && Creatable(pl, c, epoch)
    ensures
      var s := Run(pl, Created(pl, c, epoch), events);
      s.memory.Some? && !s.memory.value.sealed ==>
        && s.memory.value.package.entries == s.acknowledged
        && s.memory.value.package.receipts == ReceiptsOf(pl, s.acknowledged)
        && s.memory.value.world.revision == |s.acknowledged|
        && Sound(pl, s.memory.value.package, s.memory.value.world)
        && Opening(pl, s.disk).Ok? && Opening(pl, s.disk).value.package == s.memory.value.package
        && Opening(pl, s.disk).value.world == s.memory.value.world
  {
    hide Sound, Holds, HoldsClean, Next, Run, Creatable, Created, Opening, AtMostOneMore;
    CreatedKeeps(pl, c, epoch);
    var s := Run(pl, Created(pl, c, epoch), events);
    var p, w := RunKeeps(pl, Created(pl, c, epoch), events, c, epoch,
                         Package(c, epoch, [], []), Fresh(c.worldId, c.seed, c.maxSlots));
    KeepsCallable(pl, s, c, epoch, p, w);
    OpensTo(pl, s.disk, p, w);
    SoundCommitted(pl, p, w);
  }

  /** What was acknowledged once stays in every later package, at its place: each sequence is used once. */
  lemma {:induction false} AcknowledgedStays(pl: Platform, c: Config, epoch: Texts.Text, before: seq<Event>, after: seq<Event>)
    requires Lawful(pl) && Creatable(pl, c, epoch)
    ensures
      var s := Run(pl, Created(pl, c, epoch), before);
      var t := Run(pl, Created(pl, c, epoch), before + after);
      s.acknowledged <= t.acknowledged
  {
    hide Sound, Keeps, Next, Run, Creatable, Created;
    CreatedKeeps(pl, c, epoch);
    var p, w := RunKeeps(pl, Created(pl, c, epoch), before, c, epoch,
                         Package(c, epoch, [], []), Fresh(c.worldId, c.seed, c.maxSlots));
    var q, v := RunKeeps(pl, Run(pl, Created(pl, c, epoch), before), after, c, epoch, p, w);
    RunSplits(pl, Created(pl, c, epoch), before, after);
  }

  /** A command acknowledged at one point of a run and sent again at any later point, while its sequence is
      retained, is answered with the original receipt, and changes nothing. */
  lemma {:induction false} OriginalReceipt(pl: Platform, c: Config, epoch: Texts.Text, before: seq<Event>, e: Envelope, tick: u64, fault: Fault,
                        after: seq<Event>, later: u64)
    requires Lawful(pl) && Creatable(pl, c, epoch)
    requires
      var s := Run(pl, Created(pl, c, epoch), before);
      && s.memory.Some? && Callable(s.memory.value)
      && Answered(Applied(pl, s.memory.value, s.disk, e, tick, fault).result)
    requires
      var t := Run(pl, Created(pl, c, epoch), before + [Apply(e, tick, fault)] + after);
      && t.memory.Some? && !t.memory.value.sealed && e.sequence >= Low(t.memory.value.package)
    ensures
      var s := Run(pl, Created(pl, c, epoch), before);
      var t := Run(pl, Created(pl, c, epoch), before + [Apply(e, tick, fault)] + after);
      && Callable(t.memory.value)
      && var first := Applied(pl, s.memory.value, s.disk, e, tick, fault).result.receipt;
         var again := Applied(pl, t.memory.value, t.disk, e, later, NoFault);
         again.result.receipt == first && first.Some? && again.memory == t.memory.value && again.disk == t.disk
  {
    hide Sound, Holds, HoldsClean, Next, Run, Creatable, Created, AtMostOneMore, Applied, ValidEnvelope, BoundedCommand;
    CreatedKeeps(pl, c, epoch);
    var start, step := Created(pl, c, epoch), Apply(e, tick, fault);
    var s := Run(pl, start, before);
    var p, w := RunKeeps(pl, start, before, c, epoch, Package(c, epoch, [], []), Fresh(c.worldId, c.seed, c.maxSlots));
    RunSplits(pl, start, before, [step]);
    RunOne(pl, s, step);
    RunSplits(pl, start, before + [step], after);
    var q, v := NextKeeps(pl, s, step, c, epoch, p, w);
    var mid := Next(pl, s, step);
    var t := Run(pl, mid, after);
    var q', v' := RunKeeps(pl, mid, after, c, epoch, q, v);
    KeepsCallable(pl, t, c, epoch, q', v');
    NextAcknowledges(pl, s, e, tick, fault);
    FirstReceipt(pl, s.memory.value, s.disk, e, tick, fault);
    SoundPayload(pl, q', v');
    assert mid.acknowledged <= t.acknowledged;
    ResendReturnsOriginal(pl, t.memory.value, t.disk, e, later);
  }

  lemma {:induction false} RunOne(pl: Platform, s: Machine, step: Event)
    ensures Run(pl, s, [step]) == Next(pl, s, step)
  {
    hide Next;
    assert Run(pl, Next(pl, s, step), []) == Next(pl, s, step);
  }

  lemma NextAcknowledges(pl: Platform, s: Machine, e: Envelope, tick: u64, fault: Fault)
    requires s.memory.Some? && Callable(s.memory.value)
    requires Answered(Applied(pl, s.memory.value, s.disk, e, tick, fault).result)
    ensures Next(pl, s, Apply(e, tick, fault)).acknowledged == Applied(pl, s.memory.value, s.disk, e, tick, fault).memory.package.entries
    ensures Next(pl, s, Apply(e, tick, fault)).memory == Some(Applied(pl, s.memory.value, s.disk, e, tick, fault).memory)
  {
    hide Applied;
  }

  lemma SoundPayload(pl: Platform, p: Package, w: Snapshot)
    requires Sound(pl, p, w)
    ensures |p.entries| <= COMMIT_LIMIT && EntriesValid(pl, p, |p.entries|)
  {
    hide Replay.Tracks, EntryValid;
  }

  /** The receipt of an answered call is that of the entry at its sequence. */
  lemma FirstReceipt(pl: Platform, m: Memory, d: Disk, e: Envelope, tick: u64, fault: Fault)
    requires Lawful(pl) && Sound(pl, m.package, m.world) && Callable(m)
    requires Answered(Applied(pl, m, d, e, tick, fault).result)
    ensures ValidEnvelope(pl, e) && BoundedCommand(e) && e.epoch == m.package.epoch && !m.sealed
    ensures
      var o := Applied(pl, m, d, e, tick, fault);
      && 1 <= e.sequence <= |o.memory.package.entries|
      && o.memory.package.entries[e.sequence - 1].payload == pl.text(e)
      && o.result.receipt == Some(Receipt(COMMITTED, DURABLE, e.transactionId, e.sequence, o.memory.package.entries[e.sequence - 1].created, []))
  {
    hide Sound, Stage, CanonicalBytes, Frame, PackageBytes, BoundedCommand, ValidEnvelope, CommittedReceipt, Extended;
    AcceptedPasses(pl, m, d, e, tick, fault);
    if e.sequence <= High(m.package) {
      AcceptedResend(pl, m, d, e, tick, fault);
      ResendReturnsOriginal(pl, m, d, e, tick);
    } else {
      CommitOnce(pl, m, d, e, tick, fault);
      AcceptedCommits(pl, m, d, e, tick, fault);
    }
  }

  lemma AcceptedPasses(pl: Platform, m: Memory, d: Disk, e: Envelope, tick: u64, fault: Fault)
    requires Callable(m) && Answered(Applied(pl, m, d, e, tick, fault).result)
    ensures Unacceptable(pl, m, e).None? && ValidEnvelope(pl, e) && e.sequence >= Low(m.package) >= 1
    ensures BoundedCommand(e) && e.epoch == m.package.epoch && !m.sealed
  {
    hide Stage, CanonicalBytes, Frame, PackageBytes, BoundedCommand, ValidEnvelope, CommittedReceipt, Extended, Resent, Appended, Oversized, Refusal;
  }

  lemma AcceptedResend(pl: Platform, m: Memory, d: Disk, e: Envelope, tick: u64, fault: Fault)
    requires Callable(m) && Answered(Applied(pl, m, d, e, tick, fault).result) && 1 <= e.sequence <= High(m.package)
    ensures Applied(pl, m, d, e, tick, fault) == Applied(pl, m, d, e, tick, NoFault)
    ensures pl.text(e) == m.package.entries[e.sequence - 1].payload
  {
    hide Stage, CanonicalBytes, Frame, PackageBytes, BoundedCommand, ValidEnvelope, CommittedReceipt, Extended, Appended, Oversized, Refusal, Serialize;
    assert Plain(m, "IDEMPOTENCY_CONFLICT").code == "IDEMPOTENCY_CONFLICT";
  }

  lemma AcceptedCommits(pl: Platform, m: Memory, d: Disk, e: Envelope, tick: u64, fault: Fault)
    requires Callable(m) && Answered(Applied(pl, m, d, e, tick, fault).result) && e.sequence > High(m.package)
    ensures Applied(pl, m, d, e, tick, fault).memory.package != m.package
  {
    hide Stage, CanonicalBytes, Frame, PackageBytes, BoundedCommand, ValidEnvelope, Serialize;
  }
}
