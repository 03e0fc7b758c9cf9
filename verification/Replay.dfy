/** Recording committed batches, and rebuilding the world from the recorded log. */
module Replay {
  import opened Prelude
  import opened Texts
  import opened Geometry
  import opened Forest
  import opened Worlds
  import opened Commands
  import opened PolicyRules
  import opened Batch
  import opened Hierarchy
  import opened Operations
  import opened Lifetimes
  import opened Canonical
  import opened Coordinator

  const ENTRY_LIMIT := 8
  const CHECKPOINT_LIMIT := 8192

  datatype Asset = Asset(prefab: Text, revision: u32, manifest: Bytes, sha: Bytes)

  datatype Record = Record(sequence: u64, tick: u64, expectedRevision: u64, budget: Budget,
                           operations: seq<Operation>, created: seq<Binding>, checkpoint: Bytes)

  datatype Log = Log(schema: u32, commandSchema: Text, checkpointSchema: Text, worldId: Text, seed: u32, maxSlots: u32,
                     assets: seq<Asset>, records: seq<Record>)

  const CHECKPOINT_SCHEMA := Ascii("OWOBJ001-003")

  function Builtin(pl: Platform): Asset {
    Asset(UNIT_CUBE, 1, pl.manifest, pl.manifestSha)
  }

  function Decimal(n: nat): Text {
    if n < 10 then [0x30 + n] else Decimal(n / 10) + [0x30 + n % 10]
  }

  const REPLAY_ID := Ascii("018f7242-") + Ascii("4387-7c98-") + Ascii("a114-") + Ascii("00000013000")
  const REPLAY_EPOCH := Ascii("offline-replay-internal")

  /** The envelope a record is replayed with: the recorded operations under headers of its own. */
  function Rebuilt(log: Log, r: Record): Envelope {
    Envelope(PROTOCOL, log.worldId, REPLAY_ID + Decimal(r.sequence), REPLAY_EPOCH, r.sequence,
             r.expectedRevision, 120, r.budget, r.operations)
  }

  function Failed<T>(code: string): Result<T, Error> {
    Err(Error(code, None))
  }

  predicate BindingShaped(b: Binding) {
    |b.temporaryId| <= 64 && |b.worldId| <= 128 && |b.uuid| == 36 && b.generation != 0
  }

  /** The tick before record `i`. */
  function TickBefore(records: seq<Record>, i: nat): u64
    requires i <= |records|
  {
    if i == 0 then 0 else records[i - 1].tick
  }

  function CheckRecord(pl: Platform, log: Log, i: nat): Option<Error>
    requires i < |log.records|
  {
    var r := log.records[i];
    if r.sequence != i + 1 || r.expectedRevision != i || r.tick < TickBefore(log.records, i) then
      Some(Error("INVALID_REPLAY", None))
    else if r.checkpoint == [] || |r.checkpoint| > CHECKPOINT_LIMIT || |r.created| > 4 || r.operations == []
            || !BoundedOperations(r.operations) then
      Some(Error("BUDGET_EXCEEDED", None))
    else if exists k :: 0 <= k < |r.created| && !BindingShaped(r.created[k]) then
      Some(Error("INVALID_REPLAY", None))
    else if exists k :: 0 <= k < |r.operations| && r.operations[k].Create? && r.operations[k].prefab != UNIT_CUBE then
      Some(Error("MISSING_ASSET", None))
    else if Serialize(pl, Rebuilt(log, r)).None? then
      Some(Error("INVALID_REPLAY", None))
    else if |Serialize(pl, Rebuilt(log, r)).value| > COMMAND_LIMIT then
      Some(Error("BUDGET_EXCEEDED", None))
    else
      None
  }

  function CheckHeader(pl: Platform, log: Log, available: seq<Asset>): Option<Error> {
    if log.schema != 1 || log.commandSchema != PROTOCOL || log.checkpointSchema != CHECKPOINT_SCHEMA then
      Some(Error("UNSUPPORTED_SCHEMA", None))
    else if log.worldId == [] || |log.worldId| > 128 || log.maxSlots == 0 || log.maxSlots > 8
            || |log.records| > ENTRY_LIMIT || |available| > 8 then
      Some(Error("BUDGET_EXCEEDED", None))
    else if log.assets != [Builtin(pl)] || Builtin(pl) !in available then
      Some(Error("MISSING_ASSET", None))
    else
      None
  }

  /** The first complaint about the first `n` records. */
  function CheckRecords(pl: Platform, log: Log, n: nat): Option<Error>
    requires n <= |log.records|
  {
    if n == 0 then None
    else if CheckRecords(pl, log, n - 1).Some? then CheckRecords(pl, log, n - 1)
    else CheckRecord(pl, log, n - 1)
  }

  /** The world after replaying the first `n` records. */
  function Replayed(pl: Platform, log: Log, n: nat): Result<Snapshot, Error>
    requires n <= |log.records|
  {
    if n == 0 then
      if ValidWorld(log.worldId, log.maxSlots) then Ok(Fresh(log.worldId, log.seed, log.maxSlots))
      else Failed("INVALID_REPLAY")
    else
      var before :- Replayed(pl, log, n - 1);
      ReplayOne(pl, log, before, log.records[n - 1])
  }

  function ReplayOne(pl: Platform, log: Log, s: Snapshot, r: Record): Result<Snapshot, Error> {
    var staged := Stage(pl, s, Rebuilt(log, r), None, Some(r.created));
    if staged.Err? || staged.value.created != r.created then Failed("INVALID_REPLAY")
    else if CanonicalBytes(pl, staged.value.after) != r.checkpoint then Failed("CHECKPOINT_MISMATCH")
    else Ok(staged.value.after)
  }

  /** Everything `reconstruct` decides. */
  function Reconstruction(pl: Platform, log: Log, available: seq<Asset>): Result<Snapshot, Error> {
    var header := CheckHeader(pl, log, available);
    var records := CheckRecords(pl, log, |log.records|);
    if header.Some? then Err(header.value)
    else if records.Some? then Err(records.value)
    else Replayed(pl, log, |log.records|)
  }

  method Preflight(pl: Platform, log: Log, available: seq<Asset>) returns (error: Option<Error>)
    ensures error == if CheckHeader(pl, log, available).Some? then CheckHeader(pl, log, available)
                     else CheckRecords(pl, log, |log.records|)
  {
    hide CheckRecord, CheckHeader;
    error := CheckHeader(pl, log, available);
    if error.Some? {
      return;
    }
    var i := 0;
    while i < |log.records|
      invariant i <= |log.records| && error == None == CheckRecords(pl, log, i)
    {
      error := CheckRecord(pl, log, i);
      i := i + 1;
      assert CheckRecords(pl, log, i) == error;
      if error.Some? {
        CheckStays(pl, log, i, |log.records|);
        return;
      }
    }
  }

  lemma {:induction false} CheckStays(pl: Platform, log: Log, m: nat, n: nat)
    requires m <= n <= |log.records|
    ensures CheckRecords(pl, log, m).Some? ==> CheckRecords(pl, log, n) == CheckRecords(pl, log, m)
    ensures CheckRecords(pl, log, n).None? ==> CheckRecords(pl, log, m).None?
    decreases n
  {
    hide CheckRecord;
    if m < n {
      CheckStays(pl, log, m, n - 1);
    }
  }

  lemma {:induction false} FailureStays(pl: Platform, log: Log, m: nat, n: nat)
    requires m <= n <= |log.records| && Replayed(pl, log, m).Err?
    ensures Replayed(pl, log, n) == Replayed(pl, log, m)
    decreases n
  {
    hide ReplayOne;
    if m < n {
      FailureStays(pl, log, m, n - 1);
    }
  }

  /** Replays onto a fresh private world; a failure never returns an applied prefix. */
  method Reconstruct(pl: Platform, log: Log, available: seq<Asset>) returns (world: World?, error: Option<Error>)
    ensures match Reconstruction(pl, log, available)
      case Ok(s) => error == None && world != null && fresh(world) && world.state == s
      case Err(e) => error == Some(e) && world == null
  {
    hide CheckRecord, CheckHeader, Stage, CanonicalBytes, Committed;
    error := Preflight(pl, log, available);
    if error.Some? {
      return null, error;
    }
    if !ValidWorld(log.worldId, log.maxSlots) {
      FailureStays(pl, log, 0, |log.records|);
      return null, Some(Error("INVALID_REPLAY", None));
    }
    var live := new World(log.worldId, log.seed, log.maxSlots);
    FreshCommitted(log.worldId, log.seed, log.maxSlots);
    var i := 0;
    while i < |log.records|
      invariant i <= |log.records| && fresh(live)
      invariant Replayed(pl, log, i) == Ok(live.state) && Committed(live.state)
    {
      var r := log.records[i];
      ghost var before := live.state;
      assert Replayed(pl, log, i + 1) == ReplayOne(pl, log, before, r);
      var receipt, _ := Apply(pl, live, Rebuilt(log, r), None, Some(r.created));
      StatusTells();
      if receipt.status != COMMITTED || receipt.created != r.created {
        FailureStays(pl, log, i + 1, |log.records|);
        return null, Some(Error("INVALID_REPLAY", None));
      }
      var bytes := Write(pl, live.state);
      if bytes != r.checkpoint {
        FailureStays(pl, log, i + 1, |log.records|);
        return null, Some(Error("CHECKPOINT_MISMATCH", None));
      }
      i := i + 1;
    }
    world, error := live, None;
  }

  lemma StatusTells()
    ensures COMMITTED != REJECTED
  {
    assert |COMMITTED| != |REJECTED|;
  }

  // Why replaying a record repeats what was recorded

  /** A create that succeeded succeeds again against its own bindings, whatever guarded it. */
  lemma StepRepeats(cx: Context, st: Staging, op: Operation, operation: nat, bindings: seq<Binding>)
    requires Guarded(st) && cx.bindings.None? && Step(cx, st, op, operation).Ok?
    requires Step(cx, st, op, operation).value.created <= bindings
    ensures Step(cx.(bindings := Some(bindings)), st.(guard := None), op, operation)
            == Ok(Step(cx, st, op, operation).value.(guard := None))
  {
    hide Proper, Uniform, Refresh, Placed, Hung, Within, OnCreate, OnTransform, OnErase, Sort;
    var again := cx.(bindings := Some(bindings));
    match op
    case Create(_, _) =>
      var created := Step(cx, st, op, operation).value.created;
      assert created[|st.created|] == bindings[|st.created|];
    case SetTransform(t, _) =>
      assert Resolve(again, st.(guard := None), t, operation) == Resolve(cx, st, t, operation);
    case SetTags(t, _) =>
      assert Resolve(again, st.(guard := None), t, operation) == Resolve(cx, st, t, operation);
    case Reparent(t, p, _) =>
      assert Resolve(again, st.(guard := None), t, operation) == Resolve(cx, st, t, operation);
    case Delete(t) =>
      assert Resolve(again, st.(guard := None), t, operation) == Resolve(cx, st, t, operation);
  }

  lemma CreatedGrows(cx: Context, st: Staging, op: Operation, operation: nat)
    requires Guarded(st) && Step(cx, st, op, operation).Ok?
    ensures st.created <= Step(cx, st, op, operation).value.created
  {
    hide Proper, Uniform, Refresh, Placed, Hung, Within, Sort;
  }

  lemma {:induction false} StepsRepeat(cx: Context, st: Staging, ops: seq<Operation>, n: nat, bindings: seq<Binding>)
    requires n <= |ops| && Guarded(st) && cx.bindings.None? && Steps(cx, st, ops, n).Ok?
    requires Steps(cx, st, ops, n).value.created <= bindings
    ensures Steps(cx.(bindings := Some(bindings)), st.(guard := None), ops, n)
            == Ok(Steps(cx, st, ops, n).value.(guard := None))
    decreases n
  {
    hide Step;
    if n > 0 {
      var before := Steps(cx, st, ops, n - 1).value;
      CreatedGrows(cx, before, ops[n - 1], n - 1);
      StepsRepeat(cx, st, ops, n - 1, bindings);
      StepRepeats(cx, before, ops[n - 1], n - 1, bindings);
    }
  }

  /** What a batch does depends on its operations only, not on its other headers:
      under any valid headers it commits to the same world and consumes exactly its own bindings. */
  lemma StageRepeats(pl: Platform, s: Snapshot, e: Envelope, admission: Option<Admission>, again: Envelope)
    requires Admitted(admission) && Stage(pl, s, e, admission, None).Ok?
    requires ValidEnvelope(pl, again) && again.worldId == e.worldId && again.expectedRevision == e.expectedRevision
    requires again.operations == e.operations
    ensures
      var staged := Stage(pl, s, e, admission, None).value;
      Stage(pl, s, again, None, Some(staged.created)) == Ok(staged.(guard := None))
  {
    hide Step, Begin, Finish, FormatVersion, ValidEnvelope;
    var guard := Start(admission, s, e).value;
    var cx := Context(s.worldId, s.seed, s.maxSlots, s.revision + 1, None);
    var first := Staging(s.slots, map[], [], guard);
    var created := Steps(cx, first, e.operations, |e.operations|).value.created;
    StepsRepeat(cx, first, e.operations, |e.operations|, created);
    assert Start(None, s, again) == Ok(None);
  }

  lemma {:induction false} ReplayHeaders(n: nat)
    requires 1 <= n <= 8
    ensures UuidShaped(REPLAY_ID + Decimal(n)) && Identifier(REPLAY_EPOCH, 128)
    ensures |REPLAY_ID + Decimal(n)| == 36
  {
    var id := REPLAY_ID + Decimal(n);
    assert Ascii("018f7242-") == [0x30, 0x31, 0x38, 0x66, 0x37, 0x32, 0x34, 0x32, 0x2D];
    assert Ascii("4387-7c98-") == [0x34, 0x33, 0x38, 0x37, 0x2D, 0x37, 0x63, 0x39, 0x38, 0x2D];
    assert Ascii("a114-") == [0x61, 0x31, 0x31, 0x34, 0x2D];
    assert Ascii("00000013000") == [0x30, 0x30, 0x30, 0x30, 0x30, 0x30, 0x31, 0x33, 0x30, 0x30, 0x30];
    forall i | 0 <= i < 36
      ensures if i in [8, 13, 18, 23] then id[i] == 0x2D else 0x30 <= id[i] <= 0x39 || 0x61 <= id[i] <= 0x66
    {
      if i < 9 {
        assert id[i] == Ascii("018f7242-")[i];
      } else if i < 19 {
        assert id[i] == Ascii("4387-7c98-")[i - 9];
      } else if i < 24 {
        assert id[i] == Ascii("a114-")[i - 19];
      } else if i < 35 {
        assert id[i] == Ascii("00000013000")[i - 24];
      }
    }
  }

  /** The rebuilt envelope of a recorded batch is valid, and short enough under its own headers. */
  lemma RebuiltValid(pl: Platform, log: Log, r: Record, e: Envelope)
    requires Lawful(pl) && ValidEnvelope(pl, e) && Bounded(e) && 1 <= r.sequence <= 8
    requires log.worldId == e.worldId && r.budget == e.budget && r.operations == e.operations
    ensures ValidEnvelope(pl, Rebuilt(log, r)) && |pl.text(Rebuilt(log, r))| <= COMMAND_LIMIT
  {
    hide Identifier, UuidShaped, ValidOperation, BoundedOperations;
    ReplayHeaders(r.sequence);
    BoundedText(Rebuilt(log, r));
  }

  // The recorder

  function Exported(pl: Platform, s: Snapshot, records: seq<Record>): Log {
    Log(1, PROTOCOL, CHECKPOINT_SCHEMA, s.worldId, s.seed, s.maxSlots, [Builtin(pl)], records)
  }

  /** The first `k` records pass the preflight and rebuild a world, which is `s` when they lead up to it. */
  ghost predicate TracksTo(pl: Platform, s: Snapshot, records: seq<Record>, k: nat)
    requires k <= |records|
  {
    var log := Exported(pl, s, records);
    && CheckRecords(pl, log, k).None?
    && Replayed(pl, log, k).Ok?
    && (s.revision == k ==> Replayed(pl, log, k) == Ok(s))
  }

  /** Every prefix of the records rebuilds the world of that revision: as long as no commit bypassed
      the recorder, all of them rebuild the live one. */
  ghost predicate Tracks(pl: Platform, s: Snapshot, records: seq<Record>) {
    && Committed(s) && s.maxSlots <= 8 && |records| <= ENTRY_LIMIT && |records| <= s.revision
    && forall k :: 0 <= k <= |records| ==> TracksTo(pl, s, records, k)
  }

  /** It is enough that all the records do. */
  lemma TracksWhole(pl: Platform, s: Snapshot, records: seq<Record>)
    requires Committed(s) && s.maxSlots <= 8 && |records| <= ENTRY_LIMIT && |records| <= s.revision
    requires TracksTo(pl, s, records, |records|)
    ensures Tracks(pl, s, records)
  {
    hide Committed, CheckRecords, Replayed;
    var log, n := Exported(pl, s, records), |records|;
    forall k | 0 <= k <= n
      ensures TracksTo(pl, s, records, k)
    {
      CheckStays(pl, log, k, n);
      if Replayed(pl, log, k).Err? {
        FailureStays(pl, log, k, n);
      }
    }
  }

  /** The record of a batch staged on `s`. */
  function NewRecord(pl: Platform, s: Snapshot, records: seq<Record>, e: Envelope, tick: u64, staged: Staged): Record
    requires |records| < ENTRY_LIMIT
  {
    Record(|records| + 1, tick, |records|, e.budget, e.operations, staged.created, CanonicalBytes(pl, staged.after))
  }

  /** The recorder's own checks before the batch reaches the Coordinator. */
  function Refusal(pl: Platform, s: Snapshot, records: seq<Record>, e: Envelope, tick: u64): Option<Error> {
    if !Bounded(e) then Some(Error("BUDGET_EXCEEDED", None))
    else if s.revision != |records| || e.expectedRevision != s.revision then Some(Error("REVISION_CONFLICT", None))
    else if |records| == ENTRY_LIMIT then Some(Error("BUDGET_EXCEEDED", None))
    else if records != [] && tick < records[|records| - 1].tick then Some(Error("INVALID_REPLAY", None))
    else if Serialize(pl, e).None? then Some(Error("INVALID_SCHEMA", None))
    else if |Serialize(pl, e).value| > COMMAND_LIMIT then Some(Error("BUDGET_EXCEEDED", None))
    else None
  }

  /** A batch through the recorder: the staged result, or why there is none. */
  function Recording(pl: Platform, s: Snapshot, records: seq<Record>, e: Envelope, tick: u64, admission: Option<Admission>)
    : (r: Result<Staged, Error>)
    requires Admitted(admission)
    ensures r.Ok? ==> Refusal(pl, s, records, e, tick).None? && Stage(pl, s, e, admission, None) == r
  {
    var refusal := Refusal(pl, s, records, e, tick);
    if refusal.Some? then Err(refusal.value)
    else
      var staged :- Stage(pl, s, e, admission, None);
      if |CanonicalBytes(pl, staged.after)| > CHECKPOINT_LIMIT then Failed("BUDGET_EXCEEDED") else Ok(staged)
  }

  lemma {:induction false} PrefixChecks(pl: Platform, a: Log, b: Log, n: nat)
    requires n <= |a.records| && n <= |b.records| && a.records[..n] == b.records[..n]
    requires a.worldId == b.worldId && a.seed == b.seed && a.maxSlots == b.maxSlots
    ensures CheckRecords(pl, a, n) == CheckRecords(pl, b, n) && Replayed(pl, a, n) == Replayed(pl, b, n)
    decreases n
  {
    hide CheckRecord, ReplayOne, Fresh;
    if n > 0 {
      assert a.records[..n - 1] == a.records[..n][..n - 1] && b.records[..n - 1] == b.records[..n][..n - 1];
      assert a.records[n - 1] == a.records[..n][n - 1] == b.records[..n][n - 1] == b.records[n - 1];
      assert n > 1 ==> a.records[n - 2] == a.records[..n][n - 2] == b.records[..n][n - 2] == b.records[n - 2];
      PrefixChecks(pl, a, b, n - 1);
      SameCheck(pl, a, b, n - 1);
      if Replayed(pl, a, n - 1).Ok? {
        SameReplay(pl, a, b, Replayed(pl, a, n - 1).value, a.records[n - 1]);
      }
    }
  }

  lemma SameCheck(pl: Platform, a: Log, b: Log, i: nat)
    requires i < |a.records| && i < |b.records| && a.records[i] == b.records[i]
    requires i > 0 ==> a.records[i - 1] == b.records[i - 1]
    requires a.worldId == b.worldId
    ensures CheckRecord(pl, a, i) == CheckRecord(pl, b, i)
  {
    hide BoundedOperations, ValidEnvelope, BindingShaped;
  }

  lemma SameReplay(pl: Platform, a: Log, b: Log, s: Snapshot, r: Record)
    requires a.worldId == b.worldId
    ensures ReplayOne(pl, a, s, r) == ReplayOne(pl, b, s, r)
  {
    hide Stage, CanonicalBytes;
    assert Rebuilt(a, r) == Rebuilt(b, r);
  }

  lemma CanonicalNonEmpty(pl: Platform, s: Snapshot)
    ensures CanonicalBytes(pl, s) != []
  {
    assert |Magic(s.version)| > 0;
  }

  /** Created bindings are well-shaped, and only the built-in prefab was created. */
  lemma StagedShaped(pl: Platform, s: Snapshot, e: Envelope, admission: Option<Admission>)
    requires Committed(s) && Admitted(admission) && Stage(pl, s, e, admission, None).Ok? && Bounded(e)
    ensures
      var staged := Stage(pl, s, e, admission, None).value;
      && |staged.created| <= |e.operations|
      && (forall k :: 0 <= k < |staged.created| ==> BindingShaped(staged.created[k]))
      && (forall k :: 0 <= k < |e.operations| && e.operations[k].Create? ==> e.operations[k].prefab == UNIT_CUBE)
  {
    hide Step, Sound, Stamped, Start, Finish, FormatVersion, ValidEnvelope, BindingShaped, OperationFits, Identifier, BoundedOperation;
    OperationsFit(pl, e);
    var guard := Start(admission, s, e).value;
    var cx := Context(s.worldId, s.seed, s.maxSlots, s.revision + 1, None);
    StepsShaped(cx, Staging(s.slots, map[], [], guard), e.operations, |e.operations|);
  }

  lemma {:induction false} StepsShaped(cx: Context, st: Staging, ops: seq<Operation>, n: nat)
    requires n <= |ops| && Guarded(st) && st.created == [] && StagedSound(cx, st.slots) && |cx.worldId| <= 128
    requires BoundedOperations(ops) && forall i :: 0 <= i < |ops| ==> OperationFits(ops[i])
    requires Steps(cx, st, ops, n).Ok?
    ensures
      var st' := Steps(cx, st, ops, n).value;
      && StagedSound(cx, st'.slots) && |st'.created| <= n
      && (forall k :: 0 <= k < |st'.created| ==> BindingShaped(st'.created[k]))
      && (forall k :: 0 <= k < n && ops[k].Create? ==> ops[k].prefab == UNIT_CUBE)
    decreases n
  {
    hide Step, Sound, BindingShaped, OperationFits;
    if n > 0 {
      StepsShaped(cx, st, ops, n - 1);
      StepSound(cx, Steps(cx, st, ops, n - 1).value, ops[n - 1], n - 1);
      StepShaped(cx, Steps(cx, st, ops, n - 1).value, ops[n - 1], n - 1);
    }
  }

  lemma StepShaped(cx: Context, st: Staging, op: Operation, operation: nat)
    requires Guarded(st) && StagedSound(cx, st.slots) && |cx.worldId| <= 128 && BoundedOperation(op)
    requires Step(cx, st, op, operation).Ok?
    ensures op.Create? ==> op.prefab == UNIT_CUBE
    ensures
      var st' := Step(cx, st, op, operation).value;
      st'.created == st.created || exists b :: st'.created == st.created + [b] && BindingShaped(b)
  {
    hide DoCreate, DoTransform, DoTags, DoReparent, DoDelete, StagedSound, BoundedOperation;
    match op
    case Create(_, _) => CreateShaped(cx, st, op, operation);
    case SetTransform(_, _) => TransformCreates(cx, st, op, operation);
    case SetTags(_, _) => TagsCreate(cx, st, op, operation);
    case Reparent(_, _, _) => ReparentCreates(cx, st, op, operation);
    case Delete(_) => DeleteCreates(cx, st, op, operation);
  }

  lemma CreateShaped(cx: Context, st: Staging, op: Operation, operation: nat)
    requires Guarded(st) && StagedSound(cx, st.slots) && |cx.worldId| <= 128 && BoundedOperation(op)
    requires op.Create? && DoCreate(cx, st, op, operation).Ok?
    ensures op.prefab == UNIT_CUBE
    ensures
      var st' := DoCreate(cx, st, op, operation).value;
      exists b :: st'.created == st.created + [b] && BindingShaped(b)
  {
    hide LinkSound, ScaleSound, Coherent, HookCreate;
    var at, st' := FirstFree(st.slots, 0), DoCreate(cx, st, op, operation).value;
    assert at < |st.slots| ==> SlotSound(cx.seed, st.slots[at], at);
    assert st'.created == st.created + [st'.created[|st.created|]];
  }

  lemma TransformCreates(cx: Context, st: Staging, op: Operation, operation: nat)
    requires Guarded(st) && op.SetTransform? && DoTransform(cx, st, op, operation).Ok?
    ensures DoTransform(cx, st, op, operation).value.created == st.created
  {
    hide Proper, Uniform, Refresh, Placed, Resolve, HookTransform;
  }

  lemma TagsCreate(cx: Context, st: Staging, op: Operation, operation: nat)
    requires Guarded(st) && op.SetTags? && DoTags(cx, st, op, operation).Ok?
    ensures DoTags(cx, st, op, operation).value.created == st.created
  {
    hide Resolve, Sort;
  }

  lemma ReparentCreates(cx: Context, st: Staging, op: Operation, operation: nat)
    requires Guarded(st) && op.Reparent? && DoReparent(cx, st, op, operation).Ok?
    ensures DoReparent(cx, st, op, operation).value.created == st.created
  {
    hide Uniform, Refresh, Hung, Within, Resolve, ResolveParent;
  }

  lemma DeleteCreates(cx: Context, st: Staging, op: Operation, operation: nat)
    requires Guarded(st) && op.Delete? && DoDelete(cx, st, op, operation).Ok?
    ensures DoDelete(cx, st, op, operation).value.created == st.created
  {
    hide Resolve, HookErase;
  }

  /** The new record passes every check of the preflight. */
  lemma NewRecordChecks(pl: Platform, s: Snapshot, records: seq<Record>, e: Envelope, tick: u64, admission: Option<Admission>, log: Log)
    requires Lawful(pl) && Committed(s) && Admitted(admission) && |records| < ENTRY_LIMIT
    requires Recording(pl, s, records, e, tick, admission).Ok?
    requires
      var staged := Recording(pl, s, records, e, tick, admission).value;
      log.records == records + [NewRecord(pl, s, records, e, tick, staged)] && log.worldId == s.worldId
    ensures CheckRecord(pl, log, |records|).None?
  {
    hide Stage, Committed, CanonicalBytes, BindingShaped, ValidOperation, Identifier, UuidShaped, Rebuilt, BoundedOperation, Lawful;
    var r := log.records[|records|];
    StageHeaders(pl, s, e, admission, None);
    RebuiltValid(pl, log, r, e);
    StagedShaped(pl, s, e, admission);
    CanonicalNonEmpty(pl, Stage(pl, s, e, admission, None).value.after);
  }

  /** Replaying the new record repeats the batch that was recorded. */
  lemma NewRecordReplays(pl: Platform, s: Snapshot, records: seq<Record>, e: Envelope, tick: u64, admission: Option<Admission>, log: Log)
    requires Lawful(pl) && Admitted(admission) && |records| < ENTRY_LIMIT
    requires Recording(pl, s, records, e, tick, admission).Ok?
    requires
      var staged := Recording(pl, s, records, e, tick, admission).value;
      log.records == records + [NewRecord(pl, s, records, e, tick, staged)] && log.worldId == s.worldId
    ensures ReplayOne(pl, log, s, log.records[|records|]) == Ok(Recording(pl, s, records, e, tick, admission).value.after)
  {
    var r := log.records[|records|];
    RebuiltValid(pl, log, r, e);
    StageHeaders(pl, s, e, admission, None);
    StageRepeats(pl, s, e, admission, Rebuilt(log, r));
    hide Stage, CanonicalBytes, ValidEnvelope, Bounded;
  }

  lemma StageHeaders(pl: Platform, s: Snapshot, e: Envelope, admission: Option<Admission>, bindings: Option<seq<Binding>>)
    requires Admitted(admission) && Stage(pl, s, e, admission, bindings).Ok?
    ensures ValidEnvelope(pl, e) && e.worldId == s.worldId && e.expectedRevision == s.revision
  {
    hide Steps, Start, Close, ValidEnvelope;
  }

  /** Recording a batch keeps the log in step with the world. */
  lemma RecordingTracks(pl: Platform, s: Snapshot, records: seq<Record>, e: Envelope, tick: u64, admission: Option<Admission>)
    requires Lawful(pl) && Tracks(pl, s, records) && Admitted(admission)
    requires Recording(pl, s, records, e, tick, admission).Ok?
    ensures
      var staged := Recording(pl, s, records, e, tick, admission).value;
      && staged.after.revision == |records| + 1
      && Tracks(pl, staged.after, records + [NewRecord(pl, s, records, e, tick, staged)])
  {
    hide Stage, Committed, CanonicalBytes, ValidEnvelope, Rebuilt, Evolves, NewIdentities, CheckRecord, ReplayOne, Bounded;
    var staged := Stage(pl, s, e, admission, None).value;
    var r := NewRecord(pl, s, records, e, tick, staged);
    var n, more := |records|, records + [r];
    StageCommits(pl, s, e, admission, None);
    var prior, log := Exported(pl, s, records), Exported(pl, staged.after, more);
    assert more[..n] == records[..n];
    assert TracksTo(pl, s, records, n);
    PrefixChecks(pl, prior, log, n);
    NewRecordChecks(pl, s, records, e, tick, admission, log);
    NewRecordReplays(pl, s, records, e, tick, admission, log);
    TracksWhole(pl, staged.after, more);
  }

  /** A commit that bypasses the recorder puts the world one further ahead of the log. */
  lemma OutsideTracks(pl: Platform, s: Snapshot, records: seq<Record>, e: Envelope, admission: Option<Admission>, bindings: Option<seq<Binding>>)
    requires Tracks(pl, s, records) && Admitted(admission) && Stage(pl, s, e, admission, bindings).Ok?
    ensures
      var after := Stage(pl, s, e, admission, bindings).value.after;
      Tracks(pl, after, records) && after.revision - |records| == s.revision - |records| + 1
  {
    hide Stage, CheckRecord, ReplayOne, Committed, Evolves, NewIdentities;
    var after := Stage(pl, s, e, admission, bindings).value.after;
    StageCommits(pl, s, e, admission, bindings);
    assert TracksTo(pl, s, records, |records|);
    PrefixChecks(pl, Exported(pl, s, records), Exported(pl, after, records), |records|);
    TracksWhole(pl, after, records);
  }

  /** An exported log rebuilds exactly the live world. */
  lemma ExportReconstructs(pl: Platform, s: Snapshot, records: seq<Record>, available: seq<Asset>)
    requires Tracks(pl, s, records) && s.revision == |records|
    requires |available| <= 8 && Builtin(pl) in available
    ensures Reconstruction(pl, Exported(pl, s, records), available) == Ok(s)
  {
    hide CheckRecords, Replayed, Sound, Stamped, FormatVersion;
    assert TracksTo(pl, s, records, |records|);
  }

  /** Whatever is reconstructed is a committed world at the revision of the log,
      and after every record it had the recorded checkpoint. */
  lemma {:induction false} ReplayedCommitted(pl: Platform, log: Log, n: nat)
    requires n <= |log.records| && Replayed(pl, log, n).Ok?
    ensures
      var s := Replayed(pl, log, n).value;
      && Committed(s) && s.revision == n && s.worldId == log.worldId && s.seed == log.seed && s.maxSlots == log.maxSlots
      && (n > 0 ==> CanonicalBytes(pl, s) == log.records[n - 1].checkpoint)
    decreases n
  {
    hide Stage, Committed, CanonicalBytes, Evolves, NewIdentities;
    if n == 0 {
      FreshCommitted(log.worldId, log.seed, log.maxSlots);
    } else {
      ReplayedCommitted(pl, log, n - 1);
      StageCommits(pl, Replayed(pl, log, n - 1).value, Rebuilt(log, log.records[n - 1]), None, Some(log.records[n - 1].created));
    }
  }

  /** A reconstructed world is in step with the log it came from. */
  lemma ReconstructedTracks(pl: Platform, log: Log, available: seq<Asset>)
    requires Reconstruction(pl, log, available).Ok?
    ensures
      var w := Reconstruction(pl, log, available).value;
      && Tracks(pl, w, log.records) && w.revision == |log.records|
      && w.worldId == log.worldId && w.seed == log.seed && w.maxSlots == log.maxSlots
  {
    hide CheckRecords, Replayed, Committed, CanonicalBytes;
    var w := Replayed(pl, log, |log.records|).value;
    ReplayedCommitted(pl, log, |log.records|);
    assert Exported(pl, w, log.records) == log;
    TracksWhole(pl, w, log.records);
  }

  /** The records up to any point rebuild the world of that point. */
  lemma {:induction false} TracksPrefix(pl: Platform, s: Snapshot, records: seq<Record>, k: nat)
    requires Tracks(pl, s, records) && k <= |records|
    ensures
      var past := Replayed(pl, Exported(pl, s, records), k);
      && past.Ok? && past.value.revision == k && Tracks(pl, past.value, records[..k])
      && past.value.worldId == s.worldId && past.value.seed == s.seed && past.value.maxSlots == s.maxSlots
  {
    hide CheckRecord, ReplayOne, Committed, CanonicalBytes;
    var log := Exported(pl, s, records);
    assert TracksTo(pl, s, records, k);
    ReplayedCommitted(pl, log, k);
    var past := Replayed(pl, log, k).value;
    var short := Exported(pl, past, records[..k]);
    assert short.records[..k] == log.records[..k];
    PrefixChecks(pl, short, log, k);
    TracksWhole(pl, past, records[..k]);
  }

  // Whole runs

  /** A batch handed to the recorder, or one that reaches the world past it. */
  datatype Turn =
    | ThroughRecorder(e: Envelope, tick: u64, admission: Option<Admission>)
    | Outside(e: Envelope, admission: Option<Admission>, bindings: Option<seq<Binding>>)

  datatype Session = Session(world: Snapshot, records: seq<Record>)

  /** The turn commits without the recorder. */
  predicate Bypasses(pl: Platform, x: Session, t: Turn)
    requires Admitted(t.admission)
  {
    t.Outside? && Stage(pl, x.world, t.e, t.admission, t.bindings).Ok?
  }

  function Turned(pl: Platform, x: Session, t: Turn): (y: Session)
    requires Admitted(t.admission) && |x.records| <= ENTRY_LIMIT
    ensures x.records <= y.records && |y.records| <= ENTRY_LIMIT
  {
    match t
    case ThroughRecorder(e, tick, admission) =>
      var r := Recording(pl, x.world, x.records, e, tick, admission);
      if r.Err? then x else Session(r.value.after, x.records + [NewRecord(pl, x.world, x.records, e, tick, r.value)])
    case Outside(e, admission, bindings) =>
      var r := Stage(pl, x.world, e, admission, bindings);
      if r.Err? then x else Session(r.value.after, x.records)
  }

  predicate Admissible(turns: seq<Turn>) {
    forall k :: 0 <= k < |turns| ==> Admitted(turns[k].admission)
  }

  /** A recorder on an empty world, after the first `n` turns. */
  function AfterTurns(pl: Platform, world: Snapshot, turns: seq<Turn>, n: nat): (x: Session)
    requires Admissible(turns) && n <= |turns|
    ensures |x.records| <= ENTRY_LIMIT
  {
    if n == 0 then Session(world, []) else Turned(pl, AfterTurns(pl, world, turns, n - 1), turns[n - 1])
  }

  /** How many of the first `n` turns committed without the recorder. */
  function Bypassed(pl: Platform, world: Snapshot, turns: seq<Turn>, n: nat): nat
    requires Admissible(turns) && n <= |turns|
  {
    if n == 0 then 0
    else Bypassed(pl, world, turns, n - 1) + if Bypasses(pl, AfterTurns(pl, world, turns, n - 1), turns[n - 1]) then 1 else 0
  }

  lemma TurnTracks(pl: Platform, x: Session, t: Turn)
    requires Lawful(pl) && Tracks(pl, x.world, x.records) && Admitted(t.admission)
    ensures |x.records| <= ENTRY_LIMIT
    ensures
      var y := Turned(pl, x, t);
      && Tracks(pl, y.world, y.records) && SameIdentity(x.world, y.world)
      && y.world.revision - |y.records| == x.world.revision - |x.records| + if Bypasses(pl, x, t) then 1 else 0
  {
    TracksCommitted(pl, x.world, x.records);
    hide Stage, Tracks, Committed, CanonicalBytes, Refusal, Evolves, NewIdentities;
    match t
    case ThroughRecorder(e, tick, admission) =>
      if Recording(pl, x.world, x.records, e, tick, admission).Ok? {
        RecordingTracks(pl, x.world, x.records, e, tick, admission);
        RefusedAhead(pl, x.world, x.records, e, tick, admission);
        StageCommits(pl, x.world, e, admission, None);
      }
    case Outside(e, admission, bindings) =>
      if Stage(pl, x.world, e, admission, bindings).Ok? {
        OutsideTracks(pl, x.world, x.records, e, admission, bindings);
        StageCommits(pl, x.world, e, admission, bindings);
      }
  }

  predicate SameIdentity(a: Snapshot, b: Snapshot) {
    a.worldId == b.worldId && a.seed == b.seed && a.maxSlots == b.maxSlots
  }

  /** A recorder refuses every batch while the world is ahead of its records. */
  lemma RefusedAhead(pl: Platform, s: Snapshot, records: seq<Record>, e: Envelope, tick: u64, admission: Option<Admission>)
    requires Admitted(admission)
    ensures s.revision != |records| ==> Recording(pl, s, records, e, tick, admission).Err?
  {
    hide Stage, CanonicalBytes, Bounded;
  }

  /** The recorder starts on an empty world. */
  predicate Empty(world: Snapshot) {
    ValidWorld(world.worldId, world.maxSlots) && world.maxSlots <= 8 && world == Fresh(world.worldId, world.seed, world.maxSlots)
  }

  /** After any turns the records are in step with the world, which is ahead of them by the commits that bypassed
      the recorder. */
  lemma {:induction false} TurnsTrack(pl: Platform, world: Snapshot, turns: seq<Turn>, n: nat)
    requires Lawful(pl) && Empty(world) && Admissible(turns) && n <= |turns|
    ensures
      var x := AfterTurns(pl, world, turns, n);
      Tracks(pl, x.world, x.records) && x.world.revision == |x.records| + Bypassed(pl, world, turns, n)
    decreases n
  {
    if n == 0 {
      FreshCommitted(world.worldId, world.seed, world.maxSlots);
      hide CanonicalBytes, Committed;
      TracksWhole(pl, world, []);
    } else {
      hide Tracks, Turned, Bypasses, Empty;
      TurnsTrack(pl, world, turns, n - 1);
      TurnTracks(pl, AfterTurns(pl, world, turns, n - 1), turns[n - 1]);
    }
  }

  lemma {:induction false} TurnsGrow(pl: Platform, world: Snapshot, turns: seq<Turn>, m: nat, n: nat)
    requires Lawful(pl) && Empty(world) && Admissible(turns) && m <= n <= |turns|
    ensures
      var (x, y) := (AfterTurns(pl, world, turns, m), AfterTurns(pl, world, turns, n));
      && SameIdentity(x.world, y.world) && x.records <= y.records
      && Bypassed(pl, world, turns, m) <= Bypassed(pl, world, turns, n)
      && (Bypassed(pl, world, turns, m) > 0 ==> y.records == x.records)
    decreases n
  {
    hide Tracks, Turned, Bypasses, Empty;
    if m < n {
      var z, t := AfterTurns(pl, world, turns, n - 1), turns[n - 1];
      TurnsGrow(pl, world, turns, m, n - 1);
      TurnsTrack(pl, world, turns, n - 1);
      TurnTracks(pl, z, t);
      if Bypassed(pl, world, turns, m) > 0 {
        TurnAhead(pl, z, t);
      }
    }
  }

  lemma TurnAhead(pl: Platform, x: Session, t: Turn)
    requires Admitted(t.admission) && |x.records| <= ENTRY_LIMIT && x.world.revision != |x.records|
    ensures Turned(pl, x, t).records == x.records
  {
    hide Stage, Recording;
    if t.ThroughRecorder? {
      RefusedAhead(pl, x.world, x.records, t.e, t.tick, t.admission);
    }
  }

  /** Over any run of recorded and other batches the two heads are equal if and only if no commit bypassed the recorder,
      and then the exported log rebuilds the live world. Every world of the run before the first such commit is rebuilt by
      its records, which never change again and end with its checkpoint; from that commit on nothing more is recorded. */
  lemma {:induction false} RunsRebuild(pl: Platform, world: Snapshot, turns: seq<Turn>, m: nat, n: nat, available: seq<Asset>)
    requires Lawful(pl) && Empty(world) && Admissible(turns) && m <= n <= |turns|
    requires |available| <= 8 && Builtin(pl) in available
    ensures
      var y := AfterTurns(pl, world, turns, n);
      && (y.world.revision == |y.records| <==> Bypassed(pl, world, turns, n) == 0)
      && (Bypassed(pl, world, turns, n) == 0 ==> Reconstruction(pl, Exported(pl, y.world, y.records), available) == Ok(y.world))
    ensures
      var (x, y) := (AfterTurns(pl, world, turns, m), AfterTurns(pl, world, turns, n));
      if Bypassed(pl, world, turns, m) == 0 then
        && x.records <= y.records && Replayed(pl, Exported(pl, y.world, y.records), |x.records|) == Ok(x.world)
        && (x.records != [] ==> y.records[|x.records| - 1].checkpoint == CanonicalBytes(pl, x.world))
      else
        && y.records == x.records && y.world.revision > |y.records|
        && forall e, tick, admission | Admitted(admission) :: Recording(pl, y.world, y.records, e, tick, admission).Err?
  {
    hide Empty, AfterTurns, Bypassed, Recording, Tracks, Replayed, Reconstruction, CanonicalBytes;
    var x, y := AfterTurns(pl, world, turns, m), AfterTurns(pl, world, turns, n);
    TurnsGrow(pl, world, turns, m, n);
    TurnsTrack(pl, world, turns, m);
    TurnsTrack(pl, world, turns, n);
    if Bypassed(pl, world, turns, n) == 0 {
      ExportReconstructs(pl, y.world, y.records, available);
    }
    if Bypassed(pl, world, turns, m) == 0 {
      EarlierRebuilt(pl, x, y);
    }
    forall e, tick, admission | Admitted(admission) && y.world.revision > |y.records|
      ensures Recording(pl, y.world, y.records, e, tick, admission).Err?
    {
      RefusedAhead(pl, y.world, y.records, e, tick, admission);
    }
  }

  lemma {:induction false} EarlierRebuilt(pl: Platform, x: Session, y: Session)
    requires Tracks(pl, x.world, x.records) && x.world.revision == |x.records|
    requires x.records <= y.records && SameIdentity(x.world, y.world)
    ensures Replayed(pl, Exported(pl, y.world, y.records), |x.records|) == Ok(x.world)
    ensures x.records != [] ==> y.records[|x.records| - 1].checkpoint == CanonicalBytes(pl, x.world)
  {
    hide Replayed, CheckRecords, Committed, CanonicalBytes;
    var n := |x.records|;
    assert TracksTo(pl, x.world, x.records, n);
    assert x.records[..n] == y.records[..n];
    PrefixChecks(pl, Exported(pl, x.world, x.records), Exported(pl, y.world, y.records), n);
    ReplayedCommitted(pl, Exported(pl, y.world, y.records), n);
  }

  function Refused(e: Envelope, revision: u64, error: Error): Receipt {
    Receipt(REJECTED, VOLATILE, if |e.transactionId| <= 36 then e.transactionId else [], revision, [], [error])
  }

  /** Records every batch committed through it. */
  class Recorder {
    const world: World
    var records: seq<Record>
    var head: u64

    ghost predicate Valid(pl: Platform)
      reads this, world
    {
      head == |records| && Tracks(pl, world.state, records)
    }

    constructor (pl: Platform, world: World)
      requires Committed(world.state) && world.state.maxSlots <= 8 && world.state.revision == 0 && world.state.slots == []
      ensures Valid(pl) && this.world == world && records == [] && head == 0
    {
      this.world := world;
      records, head := [], 0;
      new;
      assert world.state == Fresh(world.state.worldId, world.state.seed, world.state.maxSlots);
    }

    method ApplyAtBoundary(pl: Platform, e: Envelope, tick: u64, admission: Option<Admission>)
      returns (receipt: Receipt, guard: Option<Guard>)
      requires Lawful(pl) && Valid(pl) && Admitted(admission)
      modifies this, world
      ensures Valid(pl)
      ensures
        var r := Recording(pl, old(world.state), old(records), e, tick, admission);
        if r.Ok? then
          && world.state == r.value.after && receipt == CommittedReceipt(e, r.value) && guard == r.value.guard
          && records == old(records) + [NewRecord(pl, old(world.state), old(records), e, tick, r.value)]
          && head == old(head) + 1 == world.state.revision
        else
          && world.state == old(world.state) && records == old(records) && head == old(head)
          && receipt.status == REJECTED && receipt.created == [] && guard == None
    {
      hide Stage, Tracks, CanonicalBytes, Bounded, ValidEnvelope;
      var live := world.state.revision;
      TracksCommitted(pl, world.state, records);
      if !Bounded(e) {
        return Refused(e, live, Error("BUDGET_EXCEEDED", None)), None;
      }
      if live != head || e.expectedRevision != live {
        return Refused(e, live, Error("REVISION_CONFLICT", None)), None;
      }
      if |records| == ENTRY_LIMIT {
        return Refused(e, live, Error("BUDGET_EXCEEDED", None)), None;
      }
      if records != [] && tick < records[|records| - 1].tick {
        return Refused(e, live, Error("INVALID_REPLAY", None)), None;
      }
      var text := Serialize(pl, e);
      if text.None? {
        return Refused(e, live, Error("INVALID_SCHEMA", None)), None;
      }
      if |text.value| > COMMAND_LIMIT {
        return Refused(e, live, Error("BUDGET_EXCEEDED", None)), None;
      }
      var staged := StageBatch(pl, world.state, e, admission, None);
      if staged.Err? {
        return RejectedReceipt(e, live, staged.error, admission.Some?), None;
      }
      var checkpoint := Write(pl, staged.value.after);
      if |checkpoint| > CHECKPOINT_LIMIT {
        return RejectedReceipt(e, live, Error("BUDGET_EXCEEDED", None), admission.Some?), None;
      }
      RecordingTracks(pl, world.state, records, e, tick, admission);
      world.state := staged.value.after;
      records := records + [Record(head + 1, tick, head, e.budget, e.operations, staged.value.created, checkpoint)];
      head := head + 1;
      return CommittedReceipt(e, staged.value), staged.value.guard;
    }

    /** Exports only while no commit has bypassed the recorder. */
    method ExportLog(pl: Platform) returns (log: Result<Log, Error>)
      requires Valid(pl)
      ensures world.state.revision == |records| ==> log == Ok(Exported(pl, world.state, records))
      ensures world.state.revision != |records| ==> log == Failed("REVISION_CONFLICT")
    {
      if world.state.revision != head {
        return Failed("REVISION_CONFLICT");
      }
      return Ok(Exported(pl, world.state, records));
    }
  }

  lemma TracksCommitted(pl: Platform, s: Snapshot, records: seq<Record>)
    requires Tracks(pl, s, records)
    ensures Committed(s) && |records| <= ENTRY_LIMIT
  {
  }
}
