/** What the recorder takes down, and which logs rebuild a world. */
module Recordings {
  import opened Prelude
  import opened Texts
  import opened Worlds
  import opened Commands
  import opened PolicyRules
  import opened Batch
  import opened Lifetimes
  import opened Canonical
  import opened Replay

  lemma SerializedText(pl: Platform, e: Envelope)
    requires Lawful(pl) && ValidEnvelope(pl, e) && Bounded(e)
    ensures |pl.text(e)| <= COMMAND_LIMIT
  {
    hide ValidEnvelope, TextBound;
    BoundedText(e);
  }

  /** A batch is recorded exactly when no commit has bypassed the recorder, there is room, time does not run backwards, the
      batch is well formed and commits, and its checkpoint is not too large. */
  lemma RecordingExact(pl: Platform, s: Snapshot, records: seq<Record>, e: Envelope, tick: u64, admission: Option<Admission>)
    requires Lawful(pl) && Tracks(pl, s, records) && Admitted(admission)
    ensures Recording(pl, s, records, e, tick, admission).Ok? <==>
      && Bounded(e) && ValidEnvelope(pl, e) && e.expectedRevision == s.revision == |records| && |records| < ENTRY_LIMIT
      && (records != [] ==> records[|records| - 1].tick <= tick)
      && Stage(pl, s, e, admission, None).Ok?
      && |CanonicalBytes(pl, Stage(pl, s, e, admission, None).value.after)| <= CHECKPOINT_LIMIT
  {
    hide Stage, CanonicalBytes, Bounded, ValidEnvelope, Lawful, Committed, TracksTo;
    if Bounded(e) && ValidEnvelope(pl, e) {
      SerializedText(pl, e);
    }
  }

  /** The record says what was sent, when, and what came of it. */
  lemma RecordSays(pl: Platform, x: Session, e: Envelope, tick: u64, admission: Option<Admission>)
    requires Admitted(admission) && |x.records| <= ENTRY_LIMIT && Recording(pl, x.world, x.records, e, tick, admission).Ok?
    ensures
      var y := Turned(pl, x, ThroughRecorder(e, tick, admission));
      && |y.records| == |x.records| + 1 && y.records[..|x.records|] == x.records
      && var r := y.records[|x.records|];
         && r.sequence == |x.records| + 1 && r.expectedRevision == |x.records| && r.tick == tick
         && r.budget == e.budget && r.operations == e.operations && r.checkpoint == CanonicalBytes(pl, y.world)
         && Stage(pl, x.world, e, admission, None).Ok? && r.created == Stage(pl, x.world, e, admission, None).value.created
         && y.world == Stage(pl, x.world, e, admission, None).value.after
  {
    hide Stage, CanonicalBytes, Refusal;
  }

  /** What the preflight demands of a record at its place. */
  predicate RecordGood(pl: Platform, log: Log, i: nat)
    requires i < |log.records|
  {
    var r := log.records[i];
    && r.sequence == i + 1 && r.expectedRevision == i && (i > 0 ==> log.records[i - 1].tick <= r.tick)
    && 0 < |r.checkpoint| <= CHECKPOINT_LIMIT && |r.created| <= 4
    && 1 <= |r.operations| <= 4 && (forall k :: 0 <= k < |r.operations| ==> BoundedOperation(r.operations[k]))
    && (forall k :: 0 <= k < |r.created| ==> BindingShaped(r.created[k]))
    && (forall k :: 0 <= k < |r.operations| ==> r.operations[k].Create? ==> r.operations[k].prefab == UNIT_CUBE)
    && ValidEnvelope(pl, Rebuilt(log, r))
  }

  lemma RecordExact(pl: Platform, log: Log, i: nat)
    requires Lawful(pl) && i < |log.records| && |log.worldId| <= 128 && i < ENTRY_LIMIT
    ensures CheckRecord(pl, log, i).None? <==> RecordGood(pl, log, i)
  {
    hide ValidEnvelope, BindingShaped, BoundedOperation, Lawful, TextBound, Decimal;
    var r := log.records[i];
    if RecordGood(pl, log, i) {
      RebuiltBounded(log, r, i);
      SerializedText(pl, Rebuilt(log, r));
    }
  }

  lemma RebuiltBounded(log: Log, r: Record, i: nat)
    requires |log.worldId| <= 128 && |r.operations| <= 4 && r.sequence == i + 1 <= ENTRY_LIMIT
    requires forall k :: 0 <= k < |r.operations| ==> BoundedOperation(r.operations[k])
    ensures Bounded(Rebuilt(log, r))
  {
    hide BoundedOperation;
    ReplayHeaders(r.sequence);
  }

  lemma {:induction false} RecordsExact(pl: Platform, log: Log, n: nat)
    requires Lawful(pl) && n <= |log.records| <= ENTRY_LIMIT && |log.worldId| <= 128
    ensures CheckRecords(pl, log, n).None? <==> forall i :: 0 <= i < n ==> RecordGood(pl, log, i)
  {
    hide CheckRecord, RecordGood, Lawful;
    if n > 0 {
      RecordsExact(pl, log, n - 1);
      RecordExact(pl, log, n - 1);
    }
  }

  /** Each record leads from the world before it to the world after it, and has its checkpoint. */
  ghost predicate Leads(pl: Platform, log: Log, worlds: seq<Snapshot>, i: nat)
    requires i < |log.records| && |worlds| == |log.records| + 1
  {
    var staged := Stage(pl, worlds[i], Rebuilt(log, log.records[i]), None, Some(log.records[i].created));
    && staged.Ok? && staged.value.after == worlds[i + 1] && staged.value.created == log.records[i].created
    && CanonicalBytes(pl, worlds[i + 1]) == log.records[i].checkpoint
  }

  /** The worlds a log goes through, from the empty one to `w`. */
  ghost predicate Chronicle(pl: Platform, log: Log, worlds: seq<Snapshot>, w: Snapshot) {
    && |worlds| == |log.records| + 1 && ValidWorld(log.worldId, log.maxSlots)
    && worlds[0] == Fresh(log.worldId, log.seed, log.maxSlots) && worlds[|log.records|] == w
    && forall i :: 0 <= i < |log.records| ==> Leads(pl, log, worlds, i)
  }

  lemma {:induction false} ChronicleReplays(pl: Platform, log: Log, worlds: seq<Snapshot>, w: Snapshot, n: nat)
    requires Chronicle(pl, log, worlds, w) && n <= |log.records|
    ensures Replayed(pl, log, n) == Ok(worlds[n])
    decreases n
  {
    hide Stage, CanonicalBytes, Fresh, ValidWorld;
    if n > 0 {
      ChronicleReplays(pl, log, worlds, w, n - 1);
      assert Leads(pl, log, worlds, n - 1);
    }
  }

  lemma {:induction false} ReplayedOk(pl: Platform, log: Log, m: nat, n: nat)
    requires m <= n <= |log.records| && Replayed(pl, log, n).Ok?
    ensures Replayed(pl, log, m).Ok?
    decreases n
  {
    hide ReplayOne, Fresh, ValidWorld;
    if m < n {
      ReplayedOk(pl, log, m, n - 1);
    }
  }

  ghost function WorldsOf(pl: Platform, log: Log): (r: seq<Snapshot>)
    requires Replayed(pl, log, |log.records|).Ok?
    ensures |r| == |log.records| + 1
  {
    seq(|log.records| + 1, i requires 0 <= i < |log.records| + 1 => ReplayedOk(pl, log, i, |log.records|); Replayed(pl, log, i).value)
  }

  lemma {:induction false} ReplayChronicles(pl: Platform, log: Log)
    requires Replayed(pl, log, |log.records|).Ok?
    ensures Chronicle(pl, log, WorldsOf(pl, log), Replayed(pl, log, |log.records|).value)
  {
    hide Stage, CanonicalBytes, Fresh;
    var worlds := WorldsOf(pl, log);
    ReplayedOk(pl, log, 0, |log.records|);
    forall i | 0 <= i < |log.records|
      ensures Leads(pl, log, worlds, i)
    {
      ReplayedOk(pl, log, i, |log.records|);
      ReplayedOk(pl, log, i + 1, |log.records|);
    }
  }

  /** A log rebuilds a world if and only if its header is that of a small world with the known asset, every record is good
      where it stands, and there are worlds from the empty one to this which its records lead through, checkpoint by checkpoint. */
  lemma ReconstructionExact(pl: Platform, log: Log, available: seq<Asset>, w: Snapshot)
    requires Lawful(pl)
    ensures Reconstruction(pl, log, available) == Ok(w) <==>
      && log.schema == 1 && log.commandSchema == PROTOCOL && log.checkpointSchema == CHECKPOINT_SCHEMA
      && 0 < |log.worldId| <= 128 && 1 <= log.maxSlots <= 8 && |log.records| <= ENTRY_LIMIT
      && log.assets == [Builtin(pl)] && Builtin(pl) in available && |available| <= 8
      && (forall i :: 0 <= i < |log.records| ==> RecordGood(pl, log, i))
      && exists worlds :: Chronicle(pl, log, worlds, w)
  {
    hide Chronicle, RecordGood, CheckRecords, Replayed, Lawful;
    if CheckHeader(pl, log, available).None? {
      RecordsExact(pl, log, |log.records|);
      if Replayed(pl, log, |log.records|).Ok? {
        ReplayChronicles(pl, log);
      }
      forall worlds | Chronicle(pl, log, worlds, w)
        ensures Replayed(pl, log, |log.records|) == Ok(w)
      {
        ChronicleReplays(pl, log, worlds, w, |log.records|);
        ChronicleEnds(pl, log, worlds, w);
      }
    }
  }

  lemma ChronicleEnds(pl: Platform, log: Log, worlds: seq<Snapshot>, w: Snapshot)
    requires Chronicle(pl, log, worlds, w)
    ensures |worlds| == |log.records| + 1 && worlds[|log.records|] == w
  {
  }
}
