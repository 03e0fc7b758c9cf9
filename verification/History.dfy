/** Undo and redo over the committed world: recorded edits, a cursor, and the content of each position. */
module History {
  import opened Prelude
  import opened Texts
  import opened Geometry
  import opened Worlds
  import opened Commands
  import opened PolicyRules
  import opened Batch
  import opened Hierarchy
  import opened Operations
  import opened Lifetimes
  import opened Coordinator
  import opened Edits

  const CAPACITY := 8

  datatype Action = Undo | Redo | RewindSimulation

  /** A committed batch and the batch that takes it back. */
  datatype Change = Change(forward: seq<Operation>, inverse: seq<Operation>)

  datatype Track = Track(entries: seq<Change>, cursor: nat, expected: u64)

  datatype Advanced = Advanced(track: Track, staged: Staged)

  function Deny<T>(code: string): Result<T, Error> {
    Err(Error(code, None))
  }

  /** The operation that restores what `op` will overwrite in the world before the batch. */
  function InverseOf(s: Snapshot, op: Operation): (r: Result<Operation, Error>)
    ensures r.Ok? <==> Revertible(s.worldId, s.slots, op)
    ensures r.Ok? ==> r.value == Inverse(s.worldId, s.slots, op)
  {
    match op
    case SetTransform(target, _) =>
      var at := Located(s.worldId, s.slots, target);
      if at < 0 then Deny("STALE_HANDLE")
      else if !Isolated(s.slots, at) then Deny("UNSUPPORTED_OPERATION")
      else Ok(SetTransform(target, EntityAt(s.slots, at).transform))
    case SetTags(target, _) =>
      var at := Located(s.worldId, s.slots, target);
      if at < 0 then Deny("STALE_HANDLE") else Ok(SetTags(target, EntityAt(s.slots, at).tags))
    case _ => Deny("UNSUPPORTED_OPERATION")
  }

  /** The inverses of the first `n` operations, last first; or the first refusal. */
  function InversesOf(s: Snapshot, ops: seq<Operation>, n: nat): (r: Result<seq<Operation>, Error>)
    requires n <= |ops|
    ensures r.Ok? ==> |r.value| == n
  {
    if n == 0 then Ok([])
    else
      var before :- InversesOf(s, ops, n - 1);
      var inverse :- InverseOf(s, ops[n - 1]);
      Ok([inverse] + before)
  }

  function ForwardRefusal(pl: Platform, expected: u64, s: Snapshot, e: Envelope): Option<Error> {
    if !Bounded(e) then Some(Error("BUDGET_EXCEEDED", None))
    else if e.expectedRevision != s.revision || expected != s.revision then Some(Error("REVISION_CONFLICT", None))
    else if e.operations == [] then Some(Error("INVALID_SCHEMA", None))
    else if |e.operations| > e.budget.maxOperations then Some(Error("BUDGET_EXCEEDED", None))
    else TextRefusal(pl, e)
  }

  function TextRefusal(pl: Platform, e: Envelope): Option<Error> {
    if Serialize(pl, e).None? then Some(Error("INVALID_SCHEMA", None))
    else if |Serialize(pl, e).value| > COMMAND_LIMIT then Some(Error("BUDGET_EXCEEDED", None))
    else None
  }

  function InverseRefusal(pl: Platform, e: Envelope): Option<Error> {
    if !Bounded(e) || Serialize(pl, e).None? || |Serialize(pl, e).value| > COMMAND_LIMIT
    then Some(Error("BUDGET_EXCEEDED", None)) else None
  }

  /** A new edit: the redo tail is dropped for it. */
  function Amend(pl: Platform, t: Track, s: Snapshot, e: Envelope, admission: Option<Admission>): Result<Advanced, Error>
    requires Admitted(admission) && t.cursor <= |t.entries|
  {
    var refusal := ForwardRefusal(pl, t.expected, s, e);
    if refusal.Some? then Err(refusal.value)
    else if t.cursor >= CAPACITY then Deny("BUDGET_EXCEEDED")
    else
      var inverse :- InversesOf(s, e.operations, |e.operations|);
      var excess := InverseRefusal(pl, e.(operations := inverse));
      if excess.Some? then Err(excess.value)
      else
        var staged :- Stage(pl, s, e, admission, None);
        Ok(Advanced(Track(t.entries[..t.cursor] + [Change(e.operations, inverse)], t.cursor + 1, staged.after.revision), staged))
  }

  function NavigationRefusal(t: Track, s: Snapshot, action: Action, request: Envelope): Option<Error> {
    if !Bounded(request) then Some(Error("BUDGET_EXCEEDED", None))
    else if request.operations != [] then Some(Error("INVALID_SCHEMA", None))
    else if action.RewindSimulation? then Some(Error("UNSUPPORTED_OPERATION", None))
    else if request.expectedRevision != s.revision || t.expected != s.revision then Some(Error("REVISION_CONFLICT", None))
    else if (action.Undo? && t.cursor == 0) || (action.Redo? && t.cursor >= |t.entries|) then Some(Error("NOT_FOUND", None))
    else None
  }

  /** The operations a step of the cursor sends. */
  function Chosen(t: Track, action: Action): seq<Operation>
    requires t.cursor <= |t.entries|
    requires action.Undo? ==> t.cursor > 0
    requires !action.Undo? ==> t.cursor < |t.entries|
  {
    if action.Undo? then t.entries[t.cursor - 1].inverse else t.entries[t.cursor].forward
  }

  function Navigate(pl: Platform, t: Track, s: Snapshot, action: Action, request: Envelope, admission: Option<Admission>)
    : Result<Advanced, Error>
    requires Admitted(admission) && t.cursor <= |t.entries|
  {
    var refusal := NavigationRefusal(t, s, action, request);
    if refusal.Some? then Err(refusal.value)
    else
      var e := request.(operations := Chosen(t, action));
      if |e.operations| > request.budget.maxOperations then Deny("BUDGET_EXCEEDED")
      else if TextRefusal(pl, e).Some? then Err(TextRefusal(pl, e).value)
      else
        var staged :- Stage(pl, s, e, admission, None);
        Ok(Advanced(t.(cursor := if action.Undo? then t.cursor - 1 else t.cursor + 1, expected := staged.after.revision), staged))
  }

  // The content of each position

  predicate OperationsReady(pl: Platform, worldId: Text, slots: seq<Slot>, ops: seq<Operation>) {
    && 1 <= |ops| <= 4
    && forall k :: 0 <= k < |ops| ==> OperationReady(pl, worldId, slots, ops[k])
  }

  predicate OperationReady(pl: Platform, worldId: Text, slots: seq<Slot>, op: Operation) {
    ValidOperation(pl, op) && BoundedOperation(op) && Editing(worldId, slots, op)
  }

  /** A change leads from the content `a` to the content `b`, and back. */
  predicate Joins(pl: Platform, worldId: Text, a: seq<Slot>, c: Change, b: seq<Slot>) {
    && OperationsReady(pl, worldId, a, c.forward) && OperationsReady(pl, worldId, b, c.inverse)
    && |c.forward| == |c.inverse|
    && Edited(worldId, a, c.forward, |c.forward|) == Some(b)
    && Edited(worldId, b, c.inverse, |c.inverse|) == Some(a)
  }

  /** Each position of the cursor has its content; while no commit bypassed the history,
      the world has the content of the current position. */
  ghost predicate Faithful(pl: Platform, t: Track, contents: seq<seq<Slot>>, s: Snapshot) {
    && Committed(s) && t.cursor <= |t.entries| <= CAPACITY && t.expected <= s.revision
    && |contents| == |t.entries| + 1
    && (forall i :: 0 <= i < |t.entries| ==> Joins(pl, s.worldId, contents[i], t.entries[i], contents[i + 1]))
    && (t.expected == s.revision ==> Bare(s.slots) == contents[t.cursor])
  }

  /** What a batch of edits does to the content. */
  lemma StageEdits(pl: Platform, s: Snapshot, e: Envelope, admission: Option<Admission>)
    requires Committed(s) && Admitted(admission)
    requires OperationsReady(pl, s.worldId, Bare(s.slots), e.operations)
    ensures
      var r := Stage(pl, s, e, admission, None);
      var edit := Edited(s.worldId, Bare(s.slots), e.operations, |e.operations|);
      && (r.Ok? ==> edit == Some(Bare(r.value.after.slots)) && r.value.created == [])
      && (edit.Some? && admission.None? && Headers(pl, s, e).None? ==> r.Ok?)
  {
    hide Step, Edit, Edited, Sound, SoundBut, Evolves, ValidEnvelope, FormatVersion, Finish, Begin, OperationReady;
    var guard := Start(admission, s, e);
    if guard.Ok? && Headers(pl, s, e).None? {
      var cx := Context(s.worldId, s.seed, s.maxSlots, s.revision + 1, None);
      var st := Staging(s.slots, map[], [], guard.value);
      forall k | 0 <= k < |e.operations|
        ensures Editing(s.worldId, s.slots, e.operations[k]) && OperationFits(e.operations[k])
      {
        ReadyEdits(pl, s.worldId, s.slots, e.operations[k]);
      }
      StepsEdit(cx, st, e.operations, |e.operations|);
    }
  }

  lemma ReadyEdits(pl: Platform, worldId: Text, slots: seq<Slot>, op: Operation)
    requires OperationReady(pl, worldId, Bare(slots), op)
    ensures Editing(worldId, slots, op) && OperationFits(op)
  {
    hide Editing, SameShape, Identifier, UuidShaped;
    BareShape(slots);
    ShapeReverse(slots, Bare(slots));
    EditingShape(worldId, Bare(slots), slots, op);
  }

  lemma CommittedSettled(s: Snapshot)
    requires Committed(s)
    ensures Settled(Bare(s.slots))
  {
    hide FormatVersion, Stamped, Proper, Sorted;
    forall i | 0 <= i < |s.slots| && s.slots[i].entity.Some?
      ensures Proper(Bare(s.slots)[i].entity.value.transform) && Sorted(Bare(s.slots)[i].entity.value.tags)
    {
      assert SlotSound(s.seed, s.slots[i], i);
    }
  }

  /** The collected inverses are those of the whole batch, last first. */
  lemma {:induction false} InversesCollected(s: Snapshot, ops: seq<Operation>, n: nat)
    requires n <= |ops| && InversesOf(s, ops, n).Ok?
    ensures forall k :: 0 <= k < n ==>
      Revertible(s.worldId, s.slots, ops[k]) && InversesOf(s, ops, n).value[n - 1 - k] == Inverse(s.worldId, s.slots, ops[k])
  {
    hide Inverse, Revertible;
    if n > 0 {
      InversesCollected(s, ops, n - 1);
    }
  }

  lemma BareRevertible(worldId: Text, slots: seq<Slot>, op: Operation)
    requires Revertible(worldId, slots, op)
    ensures Revertible(worldId, Bare(slots), op) && Inverse(worldId, Bare(slots), op) == Inverse(worldId, slots, op)
    ensures Editing(worldId, Bare(slots), op) && Editing(worldId, Bare(slots), Inverse(worldId, slots, op))
  {
    hide SameShape;
    BareShape(slots);
    ShapeAgrees(slots, Bare(slots), worldId, op.target);
  }

  lemma {:induction false} InversesBare(s: Snapshot, ops: seq<Operation>)
    requires InversesOf(s, ops, |ops|).Ok?
    ensures forall k :: 0 <= k < |ops| ==> Revertible(s.worldId, Bare(s.slots), ops[k])
    ensures InversesOf(s, ops, |ops|).value == Inverses(s.worldId, Bare(s.slots), ops)
    ensures forall k :: 0 <= k < |ops| ==>
      Editing(s.worldId, Bare(s.slots), ops[k]) && Editing(s.worldId, Bare(s.slots), InversesOf(s, ops, |ops|).value[k])
  {
    hide Inverse, Revertible, Editing, InversesOf, Bare;
    forall k | 0 <= k < |ops|
      ensures Revertible(s.worldId, Bare(s.slots), ops[k]) && Editing(s.worldId, Bare(s.slots), ops[k])
    {
      InverseAt(s, ops, k);
    }
    forall k | 0 <= k < |ops|
      ensures InversesOf(s, ops, |ops|).value[k] == Inverses(s.worldId, Bare(s.slots), ops)[k]
      ensures Editing(s.worldId, Bare(s.slots), InversesOf(s, ops, |ops|).value[k])
    {
      var j := |ops| - 1 - k;
      InverseAt(s, ops, j);
      assert |ops| - 1 - j == k;
    }
  }

  lemma {:induction false} InverseAt(s: Snapshot, ops: seq<Operation>, k: nat)
    requires InversesOf(s, ops, |ops|).Ok? && k < |ops|
    ensures Revertible(s.worldId, Bare(s.slots), ops[k]) && Editing(s.worldId, Bare(s.slots), ops[k])
    ensures InversesOf(s, ops, |ops|).value[|ops| - 1 - k] == Inverse(s.worldId, Bare(s.slots), ops[k])
    ensures Editing(s.worldId, Bare(s.slots), Inverse(s.worldId, Bare(s.slots), ops[k]))
  {
    hide Inverse, Revertible, Editing, InversesOf, Bare;
    InversesCollected(s, ops, |ops|);
    assert Revertible(s.worldId, s.slots, ops[k]);
    BareRevertible(s.worldId, s.slots, ops[k]);
  }

  lemma {:induction false} AmendParts(pl: Platform, t: Track, s: Snapshot, e: Envelope, admission: Option<Admission>)
    requires Admitted(admission) && t.cursor <= |t.entries| && Amend(pl, t, s, e, admission).Ok?
    ensures t.expected == s.revision && t.cursor < CAPACITY && InversesOf(s, e.operations, |e.operations|).Ok?
    ensures
      var (r, inverse) := (Amend(pl, t, s, e, admission).value, InversesOf(s, e.operations, |e.operations|).value);
      && Stage(pl, s, e, admission, None) == Ok(r.staged)
      && r.track == Track(t.entries[..t.cursor] + [Change(e.operations, inverse)], t.cursor + 1, r.staged.after.revision)
      && ValidEnvelope(pl, e) && Bounded(e)
      && ValidEnvelope(pl, e.(operations := inverse)) && Bounded(e.(operations := inverse))
  {
    hide Stage, ValidEnvelope, Bounded, InversesOf;
  }

  lemma EnvelopeOperations(pl: Platform, e: Envelope)
    requires ValidEnvelope(pl, e) && Bounded(e)
    ensures 1 <= |e.operations| <= 4
    ensures forall k :: 0 <= k < |e.operations| ==> ValidOperation(pl, e.operations[k]) && BoundedOperation(e.operations[k])
  {
    hide ValidOperation, BoundedOperation, Identifier, UuidShaped;
  }

  /** The new change joins the content before to the content after. */
  lemma AmendJoins(pl: Platform, t: Track, s: Snapshot, e: Envelope, admission: Option<Admission>)
    requires Committed(s) && Admitted(admission) && t.cursor <= |t.entries| && Amend(pl, t, s, e, admission).Ok?
    ensures t.cursor < CAPACITY
    ensures
      var r := Amend(pl, t, s, e, admission).value;
      && r.track.entries[..t.cursor] == t.entries[..t.cursor] && |r.track.entries| == t.cursor + 1
      && Joins(pl, s.worldId, Bare(s.slots), r.track.entries[t.cursor], Bare(r.staged.after.slots))
  {
    hide Stage, ValidEnvelope, Bounded, InversesOf, Committed, Editing, Edited, Revertible, Inverses, Settled, Amend, ValidOperation, BoundedOperation;
    AmendParts(pl, t, s, e, admission);
    var r, inverse := Amend(pl, t, s, e, admission).value, InversesOf(s, e.operations, |e.operations|).value;
    var bare := Bare(s.slots);
    EnvelopeOperations(pl, e);
    EnvelopeOperations(pl, e.(operations := inverse));
    InversesBare(s, e.operations);
    forall k | 0 <= k < |e.operations|
      ensures OperationReady(pl, s.worldId, bare, e.operations[k])
    {
    }
    StageEdits(pl, s, e, admission);
    CommittedSettled(s);
    InverseUndoes(s.worldId, bare, e.operations);
    var after := Bare(r.staged.after.slots);
    EditedShape(s.worldId, bare, e.operations, |e.operations|);
    forall k | 0 <= k < |inverse|
      ensures OperationReady(pl, s.worldId, after, inverse[k])
    {
      EditingShape(s.worldId, bare, after, inverse[k]);
    }
  }

  /** After a new edit the contents are those up to the cursor and the new one; the redo tail is gone. */
  lemma AmendFaithful(pl: Platform, t: Track, contents: seq<seq<Slot>>, s: Snapshot, e: Envelope, admission: Option<Admission>)
    requires Faithful(pl, t, contents, s) && Admitted(admission) && Amend(pl, t, s, e, admission).Ok?
    ensures
      var r := Amend(pl, t, s, e, admission).value;
      && Faithful(pl, r.track, contents[..t.cursor + 1] + [Bare(r.staged.after.slots)], r.staged.after)
      && r.staged.after.revision == s.revision + 1 == r.track.expected
  {
    hide Stage, Committed, Joins, Amend, Bounded, ValidEnvelope, InversesOf, Evolves, NewIdentities;
    AmendParts(pl, t, s, e, admission);
    AmendJoins(pl, t, s, e, admission);
    StageCommits(pl, s, e, admission, None);
    var r := Amend(pl, t, s, e, admission).value;
    var more := contents[..t.cursor + 1] + [Bare(r.staged.after.slots)];
    forall i | 0 <= i < |r.track.entries|
      ensures Joins(pl, s.worldId, more[i], r.track.entries[i], more[i + 1])
    {
      if i < t.cursor {
        assert r.track.entries[i] == t.entries[i];
        assert Joins(pl, s.worldId, contents[i], t.entries[i], contents[i + 1]);
      } else {
        assert more[i] == contents[t.cursor];
      }
    }
  }

  lemma NavigateParts(pl: Platform, t: Track, s: Snapshot, action: Action, request: Envelope, admission: Option<Admission>)
    requires Admitted(admission) && t.cursor <= |t.entries| && Navigate(pl, t, s, action, request, admission).Ok?
    ensures t.expected == s.revision && !action.RewindSimulation?
    ensures if action.Undo? then t.cursor > 0 else t.cursor < |t.entries|
    ensures
      var r := Navigate(pl, t, s, action, request, admission).value;
      && Stage(pl, s, request.(operations := Chosen(t, action)), admission, None) == Ok(r.staged)
      && r.track == t.(cursor := if action.Undo? then t.cursor - 1 else t.cursor + 1, expected := r.staged.after.revision)
  {
    hide Stage, ValidEnvelope, Bounded;
  }

  /** The batch of a step of the cursor leads to the content of the neighbouring position. */
  lemma ChosenJoins(pl: Platform, t: Track, contents: seq<seq<Slot>>, s: Snapshot, action: Action)
    requires Faithful(pl, t, contents, s) && t.expected == s.revision
    requires if action.Undo? then t.cursor > 0 else t.cursor < |t.entries|
    ensures
      var ops := Chosen(t, action);
      && OperationsReady(pl, s.worldId, Bare(s.slots), ops)
      && Edited(s.worldId, Bare(s.slots), ops, |ops|) == Some(contents[if action.Undo? then t.cursor - 1 else t.cursor + 1])
  {
    hide Committed, OperationsReady, Edited;
    var i := if action.Undo? then t.cursor - 1 else t.cursor;
    assert Joins(pl, s.worldId, contents[i], t.entries[i], contents[i + 1]);
  }

  /** Undo and redo move the world to the content of the neighbouring position. */
  lemma NavigateFaithful(pl: Platform, t: Track, contents: seq<seq<Slot>>, s: Snapshot, action: Action, request: Envelope,
                         admission: Option<Admission>)
    requires Faithful(pl, t, contents, s) && Admitted(admission) && Navigate(pl, t, s, action, request, admission).Ok?
    ensures
      var r := Navigate(pl, t, s, action, request, admission).value;
      && Faithful(pl, r.track, contents, r.staged.after)
      && r.staged.after.revision == s.revision + 1 == r.track.expected
  {
    hide Stage, Committed, Bounded, ValidEnvelope, Evolves, NewIdentities, Navigate, Edited, OperationsReady, Joins;
    NavigateParts(pl, t, s, action, request, admission);
    ChosenJoins(pl, t, contents, s, action);
    var e := request.(operations := Chosen(t, action));
    StageEdits(pl, s, e, admission);
    StageCommits(pl, s, e, admission, None);
  }

  // When a step of the cursor is refused

  predicate HeadersValid(e: Envelope) {
    && e.protocol == PROTOCOL
    && Identifier(e.worldId, 128) && UuidShaped(e.transactionId) && Identifier(e.epoch, 128)
    && 1 <= e.expiresAfterTicks < U32_LIMIT
    && 1 <= e.budget.maxOperations <= 256
  }

  /** What a caller without a guard has to meet. */
  predicate Navigable(t: Track, s: Snapshot, action: Action, request: Envelope)
    requires t.cursor <= |t.entries|
  {
    && (if action.Undo? then t.cursor > 0 else action.Redo? && t.cursor < |t.entries|)
    && request.expectedRevision == s.revision == t.expected
    && Bounded(request) && request.operations == []
    && HeadersValid(request) && request.worldId == s.worldId
    && |Chosen(t, action)| <= request.budget.maxOperations
    && s.revision != U64_MAX
  }

  /** Undo and redo succeed exactly when the request is well formed and the cursor can move: the recorded
      edits themselves never fail. */
  lemma NavigateCommits(pl: Platform, t: Track, contents: seq<seq<Slot>>, s: Snapshot, action: Action, request: Envelope)
    requires Lawful(pl) && Faithful(pl, t, contents, s)
    ensures Navigate(pl, t, s, action, request, None).Ok? <==> Navigable(t, s, action, request)
  {
    hide Stage, Committed, Identifier, UuidShaped, Edited, Lawful, Joins, OperationsReady, Bounded, ValidEnvelope, Headers;
    if NavigationRefusal(t, s, action, request).None? {
      ChosenJoins(pl, t, contents, s, action);
      var e := request.(operations := Chosen(t, action));
      StageEdits(pl, s, e, None);
      NavigationText(pl, t, contents, s, action, request);
      if Stage(pl, s, e, None, None).Ok? {
        StageHeadersPass(pl, s, e);
      }
      ReadyBounded(pl, s.worldId, Bare(s.slots), request, e.operations);
      HeadersPass(pl, s, e);
    }
  }

  lemma StageHeadersPass(pl: Platform, s: Snapshot, e: Envelope)
    requires Stage(pl, s, e, None, None).Ok?
    ensures Headers(pl, s, e).None?
  {
    hide Steps, Close, ValidEnvelope;
  }

  lemma HeadersPass(pl: Platform, s: Snapshot, e: Envelope)
    ensures Headers(pl, s, e).None? <==> ValidEnvelope(pl, e) && e.worldId == s.worldId && e.expectedRevision == s.revision && s.revision != U64_MAX
  {
    hide ValidEnvelope;
  }

  lemma ReadyBounded(pl: Platform, worldId: Text, slots: seq<Slot>, request: Envelope, ops: seq<Operation>)
    requires OperationsReady(pl, worldId, slots, ops) && Bounded(request)
    ensures Bounded(request.(operations := ops))
    ensures ValidEnvelope(pl, request.(operations := ops)) <==> HeadersValid(request) && |ops| <= request.budget.maxOperations
  {
    hide Identifier, UuidShaped, Editing, ValidOperation, BoundedOperation;
    forall k | 0 <= k < |ops|
      ensures ValidOperation(pl, ops[k]) && BoundedOperation(ops[k])
    {
      assert OperationReady(pl, worldId, slots, ops[k]);
    }
  }

  lemma NavigationText(pl: Platform, t: Track, contents: seq<seq<Slot>>, s: Snapshot, action: Action, request: Envelope)
    requires Lawful(pl) && Faithful(pl, t, contents, s) && NavigationRefusal(t, s, action, request).None?
    ensures
      var e := request.(operations := Chosen(t, action));
      ValidEnvelope(pl, e) <==> TextRefusal(pl, e).None?
  {
    hide Committed, Edited, ValidEnvelope, Identifier, UuidShaped, Joins, OperationsReady, TextBound, Bounded;
    ChosenJoins(pl, t, contents, s, action);
    var e := request.(operations := Chosen(t, action));
    ReadyBounded(pl, s.worldId, Bare(s.slots), request, e.operations);
    BoundedText(e);
  }

  // When a new edit is refused

  /** What a caller without a guard has to meet: every target stands alone where it is moved, and can be put back. */
  predicate Editable(pl: Platform, t: Track, s: Snapshot, e: Envelope) {
    && Bounded(e) && ValidEnvelope(pl, e) && e.worldId == s.worldId
    && e.expectedRevision == s.revision == t.expected && s.revision != U64_MAX && t.cursor < CAPACITY
    && forall k :: 0 <= k < |e.operations| ==> Settable(e.operations[k]) && PutBack(pl, s, e.operations[k])
  }

  predicate Settable(op: Operation) {
    op.SetTransform? ==> Proper(op.value)
  }

  /** The operation sets the transform or the tags of a live slot, and what that holds can be sent again. */
  predicate PutBack(pl: Platform, s: Snapshot, op: Operation) {
    Revertible(s.worldId, s.slots, op) && OperationSent(pl, Inverse(s.worldId, s.slots, op))
  }

  predicate OperationSent(pl: Platform, op: Operation) {
    ValidOperation(pl, op) && BoundedOperation(op)
  }

  lemma EditApplies(worldId: Text, slots: seq<Slot>, mid: seq<Slot>, op: Operation)
    requires SameShape(slots, mid) && Revertible(worldId, slots, op) && Settable(op)
    ensures Edit(worldId, mid, op).Some?
  {
    hide Proper, SameShape;
    ShapeAgrees(slots, mid, worldId, op.target);
  }

  lemma {:induction false} EditsApply(worldId: Text, slots: seq<Slot>, ops: seq<Operation>, n: nat)
    requires n <= |ops|
    requires forall k :: 0 <= k < n ==> Revertible(worldId, slots, ops[k]) && Settable(ops[k])
    ensures Edited(worldId, slots, ops, n).Some?
  {
    hide Edit, Revertible, Settable, SameShape;
    if n > 0 {
      EditsApply(worldId, slots, ops, n - 1);
      EditedShape(worldId, slots, ops, n - 1);
      EditApplies(worldId, slots, Edited(worldId, slots, ops, n - 1).value, ops[n - 1]);
    }
  }

  lemma {:induction false} InversesSucceed(s: Snapshot, ops: seq<Operation>, n: nat)
    requires n <= |ops|
    ensures InversesOf(s, ops, n).Ok? <==> forall k :: 0 <= k < n ==> Revertible(s.worldId, s.slots, ops[k])
  {
    hide Revertible;
    if n > 0 {
      InversesSucceed(s, ops, n - 1);
    }
  }

  lemma {:induction false} PutBackAt(pl: Platform, s: Snapshot, ops: seq<Operation>, k: nat)
    requires InversesOf(s, ops, |ops|).Ok? && k < |ops|
    ensures PutBack(pl, s, ops[k]) <==> OperationSent(pl, InversesOf(s, ops, |ops|).value[|ops| - 1 - k])
  {
    hide OperationSent, Inverse;
    InversesCollected(s, ops, |ops|);
  }

  /** The inverse batch can be sent exactly when each of its operations can. */
  lemma {:induction false} InverseSent(pl: Platform, s: Snapshot, e: Envelope)
    requires Lawful(pl) && Bounded(e) && ValidEnvelope(pl, e) && InversesOf(s, e.operations, |e.operations|).Ok?
    ensures
      InverseRefusal(pl, e.(operations := InversesOf(s, e.operations, |e.operations|).value)).None? <==>
      forall k :: 0 <= k < |e.operations| ==> PutBack(pl, s, e.operations[k])
  {
    hide Lawful, InversesOf, PutBack, Bounded, ValidEnvelope;
    var (n, inverse) := (|e.operations|, InversesOf(s, e.operations, |e.operations|).value);
    var back := e.(operations := inverse);
    BackSent(pl, e, inverse);
    forall k | 0 <= k < n
      ensures PutBack(pl, s, e.operations[k]) <==> OperationSent(pl, inverse[n - 1 - k])
    {
      PutBackAt(pl, s, e.operations, k);
    }
    forall j | 0 <= j < n
      ensures PutBack(pl, s, e.operations[n - 1 - j]) <==> OperationSent(pl, inverse[j])
    {
      assert n - 1 - (n - 1 - j) == j;
    }
    if Bounded(back) && ValidEnvelope(pl, back) {
      BoundedText(back);
      SentText(pl, back);
    }
  }

  lemma BackSent(pl: Platform, e: Envelope, ops: seq<Operation>)
    requires Bounded(e) && ValidEnvelope(pl, e) && |ops| == |e.operations|
    ensures
      var back := e.(operations := ops);
      Bounded(back) && ValidEnvelope(pl, back) <==> forall j :: 0 <= j < |ops| ==> OperationSent(pl, ops[j])
  {
    hide Identifier, UuidShaped, ValidOperation, BoundedOperation;
  }

  lemma SentText(pl: Platform, e: Envelope)
    requires Lawful(pl) && ValidEnvelope(pl, e)
    ensures |pl.text(e)| <= TextBound(e)
  {
    hide ValidEnvelope, TextBound;
  }

  /** A new edit succeeds exactly when it may. */
  lemma AmendCommits(pl: Platform, t: Track, s: Snapshot, e: Envelope)
    requires Lawful(pl) && Committed(s) && t.cursor <= |t.entries|
    ensures Amend(pl, t, s, e, None).Ok? <==> Editable(pl, t, s, e)
  {
    hide Stage, Committed, Bounded, ValidEnvelope, InversesOf, Edited, Joins, Lawful, ForwardRefusal, InverseRefusal, PutBack, Settable;
    var n := |e.operations|;
    ForwardExact(pl, t.expected, s, e);
    InversesSucceed(s, e.operations, n);
    PutBackReverts(pl, s, e);
    if ForwardRefusal(pl, t.expected, s, e).None? && InversesOf(s, e.operations, n).Ok? {
      InverseSent(pl, s, e);
      StagedExactly(pl, s, e);
    }
  }

  /** The world then has exactly the edited content, and the history exactly this batch and its inverse behind the cursor. */
  lemma AmendEffect(pl: Platform, t: Track, s: Snapshot, e: Envelope, admission: Option<Admission>, r: Advanced)
    requires Committed(s) && Admitted(admission) && t.cursor <= |t.entries| && Amend(pl, t, s, e, admission) == Ok(r)
    ensures Edited(s.worldId, Bare(s.slots), e.operations, |e.operations|) == Some(Bare(r.staged.after.slots))
    ensures |r.track.entries| == t.cursor + 1 && r.track.entries[..t.cursor] == t.entries[..t.cursor]
    ensures r.track.entries[t.cursor].forward == e.operations && |r.track.entries[t.cursor].inverse| == |e.operations|
    ensures r.track.cursor == t.cursor + 1 && r.track.expected == r.staged.after.revision == s.revision + 1
  {
    hide Stage, Committed, Bounded, ValidEnvelope, InversesOf, Edited, OperationsReady, Amend, Evolves, NewIdentities;
    AmendParts(pl, t, s, e, admission);
    AmendJoins(pl, t, s, e, admission);
    StageCommits(pl, s, e, admission, None);
  }

  lemma PutBackReverts(pl: Platform, s: Snapshot, e: Envelope)
    ensures forall k :: 0 <= k < |e.operations| && PutBack(pl, s, e.operations[k]) ==> Revertible(s.worldId, s.slots, e.operations[k])
  {
    hide Revertible, OperationSent, Inverse;
  }

  lemma ForwardExact(pl: Platform, expected: u64, s: Snapshot, e: Envelope)
    requires Lawful(pl)
    ensures ForwardRefusal(pl, expected, s, e).None? <==>
      Bounded(e) && ValidEnvelope(pl, e) && e.expectedRevision == s.revision == expected
  {
    hide ValidOperation, BoundedOperation, Identifier, UuidShaped, TextBound, Lawful;
    if Bounded(e) && ValidEnvelope(pl, e) {
      BoundedText(e);
      SentText(pl, e);
    }
  }

  /** Such a batch is staged exactly when its values are proper and it is meant for this world. */
  lemma {:induction false} StagedExactly(pl: Platform, s: Snapshot, e: Envelope)
    requires Committed(s) && Bounded(e) && ValidEnvelope(pl, e) && e.expectedRevision == s.revision
    requires InversesOf(s, e.operations, |e.operations|).Ok?
    ensures Stage(pl, s, e, None, None).Ok? <==>
      && e.worldId == s.worldId && s.revision != U64_MAX
      && forall k :: 0 <= k < |e.operations| ==> Settable(e.operations[k])
    ensures Stage(pl, s, e, None, None).Ok? ==>
      Edited(s.worldId, Bare(s.slots), e.operations, |e.operations|) == Some(Bare(Stage(pl, s, e, None, None).value.after.slots))
  {
    hide Stage, Committed, Bounded, ValidEnvelope, Editing, Edited, Revertible, ValidOperation, BoundedOperation, Settable, InversesOf, Inverses;
    var bare := Bare(s.slots);
    EnvelopeOperations(pl, e);
    InversesBare(s, e.operations);
    forall k | 0 <= k < |e.operations|
      ensures OperationReady(pl, s.worldId, bare, e.operations[k])
    {
    }
    StageEdits(pl, s, e, None);
    HeadersPass(pl, s, e);
    if Stage(pl, s, e, None, None).Ok? {
      StageHeadersPass(pl, s, e);
      EditedProper(s.worldId, bare, e.operations, |e.operations|);
    } else if forall k :: 0 <= k < |e.operations| ==> Settable(e.operations[k]) {
      EditsApply(s.worldId, bare, e.operations, |e.operations|);
    }
  }

  lemma {:induction false} EditedProper(worldId: Text, slots: seq<Slot>, ops: seq<Operation>, n: nat)
    requires n <= |ops| && Edited(worldId, slots, ops, n).Some?
    ensures forall k :: 0 <= k < n ==> Settable(ops[k])
  {
    hide Edit, Settable;
    if n > 0 {
      EditedProper(worldId, slots, ops, n - 1);
      EditProper(worldId, Edited(worldId, slots, ops, n - 1).value, ops[n - 1]);
    }
  }

  lemma EditProper(worldId: Text, slots: seq<Slot>, op: Operation)
    requires Edit(worldId, slots, op).Some?
    ensures Settable(op)
  {
    hide Proper;
  }

  // Runs

  datatype Event =
    | NewEdit(e: Envelope, admission: Option<Admission>)
    | Move(action: Action, request: Envelope, admission: Option<Admission>)
    | Outside(batch: Envelope, admission: Option<Admission>)
    | Clear

  /** The history, the world it edits, and the content of each of its positions. */
  datatype Session = Session(world: Snapshot, track: Track, contents: seq<seq<Slot>>)

  predicate EventAdmitted(event: Event) {
    !event.Clear? ==> Admitted(event.admission)
  }

  function Opened(world: Snapshot): Session {
    Session(world, Track([], 0, world.revision), [Bare(world.slots)])
  }

  function Turn(pl: Platform, x: Session, event: Event): Session
    requires EventAdmitted(event) && x.track.cursor <= |x.track.entries| < |x.contents|
  {
    match event
    case NewEdit(e, admission) =>
      (match Amend(pl, x.track, x.world, e, admission)
       case Ok(r) => Session(r.staged.after, r.track, x.contents[..x.track.cursor + 1] + [Bare(r.staged.after.slots)])
       case Err(_) => x)
    case Move(action, request, admission) =>
      (match Navigate(pl, x.track, x.world, action, request, admission)
       case Ok(r) => x.(world := r.staged.after, track := r.track)
       case Err(_) => x)
    case Outside(batch, admission) =>
      (match Stage(pl, x.world, batch, admission, None)
       case Ok(staged) => x.(world := staged.after)
       case Err(_) => x)
    case Clear => Opened(x.world)
  }

  ghost predicate Keeps(pl: Platform, x: Session) {
    Faithful(pl, x.track, x.contents, x.world)
  }

  /** Every event keeps the history faithful; the revision moves by one with each commit, never back. */
  lemma TurnKeeps(pl: Platform, x: Session, event: Event)
    requires Keeps(pl, x) && EventAdmitted(event)
    ensures Keeps(pl, Turn(pl, x, event))
    ensures x.world.revision <= Turn(pl, x, event).world.revision <= x.world.revision + 1
    ensures Turn(pl, x, event).world.revision == x.world.revision ==> Turn(pl, x, event).world == x.world
  {
    hide Stage, Committed, Joins, Amend, Navigate, Evolves, NewIdentities;
    var (t, s) := (x.track, x.world);
    match event
    case NewEdit(e, admission) =>
      if Amend(pl, t, s, e, admission).Ok? {
        AmendFaithful(pl, t, x.contents, s, e, admission);
      }
    case Move(action, request, admission) =>
      if Navigate(pl, t, s, action, request, admission).Ok? {
        NavigateFaithful(pl, t, x.contents, s, action, request, admission);
      }
    case Outside(batch, admission) =>
      if Stage(pl, s, batch, admission, None).Ok? {
        StageCommits(pl, s, batch, admission, None);
      }
    case Clear =>
  }

  lemma OpenedKeeps(pl: Platform, world: Snapshot)
    requires Committed(world)
    ensures Keeps(pl, Opened(world))
  {
    hide Committed;
  }

  ghost predicate Reachable(pl: Platform, start: Session, events: seq<Event>, x: Session)
    decreases |events|
  {
    if events == [] then x == start
    else
      var n := |events| - 1;
      && EventAdmitted(events[n])
      && exists y :: Reachable(pl, start, events[..n], y) && y.track.cursor <= |y.track.entries| < |y.contents| && x == Turn(pl, y, events[n])
  }

  /** In every run the history is faithful. */
  lemma {:induction false} RunKeeps(pl: Platform, world: Snapshot, events: seq<Event>, x: Session)
    requires Committed(world) && Reachable(pl, Opened(world), events, x)
    ensures Keeps(pl, x)
    decreases |events|
  {
    hide Committed, Keeps, Turn, Opened, EventAdmitted;
    if events == [] {
      OpenedKeeps(pl, world);
    } else {
      var n := |events| - 1;
      var y :| Reachable(pl, Opened(world), events[..n], y) && y.track.cursor <= |y.track.entries| < |y.contents| && x == Turn(pl, y, events[n]);
      RunKeeps(pl, world, events[..n], y);
      TurnKeeps(pl, y, events[n]);
    }
  }

  lemma ContentBare(s: Snapshot, v: Snapshot)
    requires Committed(s) && Committed(v) && Bare(s.slots) == Bare(v.slots)
    requires s.worldId == v.worldId && s.seed == v.seed && s.maxSlots == v.maxSlots
    ensures Content(s) == Content(v)
  {
    hide Sound, Stamped;
    forall i | 0 <= i < |s.slots|
      ensures s.slots[i].entity.Some? == v.slots[i].entity.Some?
      ensures s.slots[i].entity.Some? ==>
        && s.slots[i].entity.value.parent == v.slots[i].entity.value.parent
        && s.slots[i].entity.value.tags == v.slots[i].entity.value.tags
    {
      assert Bare(s.slots)[i] == Bare(v.slots)[i];
    }
  }

  lemma StepContent(pl: Platform, s: Snapshot, e: Envelope, admission: Option<Admission>, staged: Staged)
    requires Committed(s) && Admitted(admission) && Stage(pl, s, e, admission, None) == Ok(staged)
    ensures Committed(staged.after) && staged.after.worldId == s.worldId && staged.after.seed == s.seed && staged.after.maxSlots == s.maxSlots
    ensures staged.after.revision == s.revision + 1
  {
    hide Stage, Committed, Evolves, NewIdentities;
    StageCommits(pl, s, e, admission, None);
  }

  /** Undoing a new edit gives back the content from before it, though the batch may set one target several times. */
  lemma EditThenUndo(pl: Platform, x: Session, e: Envelope, admission: Option<Admission>, request: Envelope, other: Option<Admission>)
    requires Keeps(pl, x) && Admitted(admission) && Admitted(other)
    requires Amend(pl, x.track, x.world, e, admission).Ok?
    requires
      var y := Amend(pl, x.track, x.world, e, admission).value;
      Navigate(pl, y.track, y.staged.after, Undo, request, other).Ok?
    ensures
      var y := Amend(pl, x.track, x.world, e, admission).value;
      var z := Navigate(pl, y.track, y.staged.after, Undo, request, other).value;
      && Content(z.staged.after) == Content(x.world) && z.staged.after.revision == x.world.revision + 2
      && z.track.cursor == x.track.cursor && z.track.entries[..z.track.cursor] == x.track.entries[..x.track.cursor]
  {
    hide Stage, Committed, Joins, Amend, Navigate, ValidEnvelope, Bounded, InversesOf;
    var y := Amend(pl, x.track, x.world, e, admission).value;
    AmendParts(pl, x.track, x.world, e, admission);
    var z := Navigate(pl, y.track, y.staged.after, Undo, request, other).value;
    NavigateParts(pl, y.track, y.staged.after, Undo, request, other);
    AmendFaithful(pl, x.track, x.contents, x.world, e, admission);
    NavigateFaithful(pl, y.track, x.contents[..x.track.cursor + 1] + [Bare(y.staged.after.slots)], y.staged.after, Undo, request, other);
    StepContent(pl, x.world, e, admission, y.staged);
    StepContent(pl, y.staged.after, request.(operations := Chosen(y.track, Undo)), other, z.staged);
    ContentBare(x.world, z.staged.after);
  }

  /** Undo then redo, or redo then undo, gives back the content and the history; only the revision moves on. */
  lemma ThereAndBack(pl: Platform, x: Session, action: Action, request: Envelope, admission: Option<Admission>,
                     again: Envelope, other: Option<Admission>)
    requires Keeps(pl, x) && Admitted(admission) && Admitted(other)
    requires Navigate(pl, x.track, x.world, action, request, admission).Ok?
    requires
      var y := Navigate(pl, x.track, x.world, action, request, admission).value;
      Navigate(pl, y.track, y.staged.after, if action.Undo? then Redo else Undo, again, other).Ok?
    ensures
      var y := Navigate(pl, x.track, x.world, action, request, admission).value;
      var z := Navigate(pl, y.track, y.staged.after, if action.Undo? then Redo else Undo, again, other).value;
      && Content(z.staged.after) == Content(x.world) && z.staged.after.revision == x.world.revision + 2
      && z.track == x.track.(expected := z.staged.after.revision)
  {
    hide Stage, Committed, Joins, Navigate, ValidEnvelope, Bounded;
    var y := Navigate(pl, x.track, x.world, action, request, admission).value;
    var back := if action.Undo? then Redo else Undo;
    NavigateParts(pl, x.track, x.world, action, request, admission);
    var z := Navigate(pl, y.track, y.staged.after, back, again, other).value;
    NavigateParts(pl, y.track, y.staged.after, back, again, other);
    NavigateFaithful(pl, x.track, x.contents, x.world, action, request, admission);
    NavigateFaithful(pl, y.track, x.contents, y.staged.after, back, again, other);
    StepContent(pl, x.world, request.(operations := Chosen(x.track, action)), admission, y.staged);
    StepContent(pl, y.staged.after, again.(operations := Chosen(y.track, back)), other, z.staged);
    ContentBare(x.world, z.staged.after);
  }

  /** Once a commit has bypassed the history, it refuses every edit and every step, until it is cleared. */
  lemma OutsideConflicts(pl: Platform, x: Session, batch: Envelope, admission: Option<Admission>, event: Event)
    requires Keeps(pl, x) && Admitted(admission) && EventAdmitted(event) && !event.Clear?
    requires x.track.expected < x.world.revision || Stage(pl, x.world, batch, admission, None).Ok?
    ensures
      var y := Turn(pl, x, Outside(batch, admission));
      && y.track == x.track && y.track.expected < y.world.revision
      && Turn(pl, y, event).track == x.track
      && (event.Outside? || Turn(pl, y, event) == y)
  {
    hide Stage, Committed, Joins, Bounded, ValidEnvelope, Evolves, NewIdentities, InversesOf;
    TurnKeeps(pl, x, Outside(batch, admission));
    if Stage(pl, x.world, batch, admission, None).Ok? {
      StageCommits(pl, x.world, batch, admission, None);
    }
  }

  // The history as an object

  const BLANK := Change([], [])

  method ReadInverses(s: Snapshot, ops: seq<Operation>) returns (r: Result<seq<Operation>, Error>)
    ensures r == InversesOf(s, ops, |ops|)
  {
    hide InverseOf;
    var prepared: seq<Operation>, i := [], 0;
    while i < |ops|
      invariant i <= |ops| && |prepared| == i
      invariant InversesOf(s, ops, i) == Ok(Reversed(prepared))
    {
      var inverse := InverseOf(s, ops[i]);
      if inverse.Err? {
        InversesFail(s, ops, i + 1, |ops|);
        return Err(inverse.error);
      }
      ReversedMore(prepared, inverse.value);
      prepared, i := prepared + [inverse.value], i + 1;
    }
    r := Ok(Reversed(prepared));
  }

  function Reversed(ops: seq<Operation>): (r: seq<Operation>)
    ensures |r| == |ops|
  {
    seq(|ops|, i requires 0 <= i < |ops| => ops[|ops| - 1 - i])
  }

  lemma ReversedMore(ops: seq<Operation>, op: Operation)
    ensures Reversed(ops + [op]) == [op] + Reversed(ops)
  {
    forall i | 0 <= i <= |ops|
      ensures Reversed(ops + [op])[i] == ([op] + Reversed(ops))[i]
    {
    }
  }

  lemma {:induction false} InversesFail(s: Snapshot, ops: seq<Operation>, m: nat, n: nat)
    requires m <= n <= |ops| && InversesOf(s, ops, m).Err?
    ensures InversesOf(s, ops, n) == InversesOf(s, ops, m)
    decreases n
  {
    hide InverseOf;
    if m < n {
      InversesFail(s, ops, m, n - 1);
    }
  }

  class History {
    const world: World
    const slots: array<Change>
    var count: nat
    var cursor: nat
    var expected: u64
    ghost var contents: seq<seq<Slot>>

    ghost predicate Valid(pl: Platform)
      reads this, world, slots
    {
      && slots.Length == CAPACITY && count <= CAPACITY
      && (forall i :: count <= i < CAPACITY ==> slots[i] == BLANK)
      && Faithful(pl, Now(), contents, world.state)
    }

    ghost function Now(): Track
      reads this, slots
      requires slots.Length == CAPACITY && count <= CAPACITY
    {
      Track(slots[..count], cursor, expected)
    }

    constructor (pl: Platform, world: World)
      requires Committed(world.state)
      ensures Valid(pl) && this.world == world && fresh(slots)
      ensures Now() == Track([], 0, world.state.revision)
    {
      hide Committed;
      this.world := world;
      slots := new Change[CAPACITY](_ => BLANK);
      count, cursor, expected := 0, 0, world.state.revision;
      contents := [Bare(world.state.slots)];
    }

    method ClearAtBoundary(pl: Platform)
      requires Valid(pl)
      modifies this`count, this`cursor, this`expected, this`contents, slots
      ensures Valid(pl) && Now() == Opened(world.state).track
    {
      hide Committed;
      forall i | 0 <= i < slots.Length {
        slots[i] := BLANK;
      }
      count, cursor, expected := 0, 0, world.state.revision;
      contents := [Bare(world.state.slots)];
    }

    method ApplyAtBoundary(pl: Platform, e: Envelope, admission: Option<Admission>)
      returns (receipt: Receipt, guard: Option<Guard>)
      requires Valid(pl) && Admitted(admission)
      modifies this`count, this`cursor, this`expected, this`contents, slots, world
      ensures Valid(pl)
      ensures match Amend(pl, old(Now()), old(world.state), e, admission)
        case Ok(r) =>
          && Now() == r.track && world.state == r.staged.after
          && receipt == CommittedReceipt(e, r.staged) && guard == r.staged.guard
        case Err(error) =>
          && Now() == old(Now()) && world.state == old(world.state)
          && receipt.status == REJECTED && receipt.errors == [error] && receipt.created == [] && guard == None
    {
      hide Stage, Committed, Joins, Bounded, ValidEnvelope, InversesOf, BoundedOperations, Evolves, NewIdentities, Bare, ForwardRefusal, InverseRefusal;
      ghost var t, before := Now(), world.state;
      var refusal := ForwardRefusal(pl, expected, world.state, e);
      if refusal.Some? {
        return Denied(e, world.state.revision, refusal.value), None;
      }
      if cursor >= CAPACITY {
        return Denied(e, world.state.revision, Error("BUDGET_EXCEEDED", None)), None;
      }
      var inverse := ReadInverses(world.state, e.operations);
      if inverse.Err? {
        return Denied(e, world.state.revision, inverse.error), None;
      }
      var excess := InverseRefusal(pl, e.(operations := inverse.value));
      if excess.Some? {
        return Denied(e, world.state.revision, excess.value), None;
      }
      receipt, guard := Apply(pl, world, e, admission, None);
      if receipt.status == COMMITTED {
        StagedStatus(pl, before, e, admission);
        AmendFaithful(pl, t, contents, before, e, admission);
        slots[cursor] := Change(e.operations, inverse.value);
        cursor := cursor + 1;
        var i := cursor;
        while i < count
          modifies slots
          invariant cursor <= i && slots.Length == CAPACITY
          invariant slots[..cursor] == t.entries[..cursor - 1] + [Change(e.operations, inverse.value)]
          invariant forall k :: cursor <= k < CAPACITY && (k < i || count <= k) ==> slots[k] == BLANK
        {
          slots[i] := BLANK;
          i := i + 1;
        }
        contents := contents[..cursor] + [Bare(world.state.slots)];
        count, expected := cursor, receipt.worldRevision;
        assert Now() == Amend(pl, t, before, e, admission).value.track;
      } else {
        StagedStatus(pl, before, e, admission);
      }
    }

    method NavigateAtBoundary(pl: Platform, action: Action, request: Envelope, admission: Option<Admission>)
      returns (receipt: Receipt, guard: Option<Guard>)
      requires Valid(pl) && Admitted(admission)
      modifies this`cursor, this`expected, world
      ensures Valid(pl)
      ensures match Navigate(pl, old(Now()), old(world.state), action, request, admission)
        case Ok(r) =>
          && Now() == r.track && world.state == r.staged.after
          && receipt.status == COMMITTED && receipt.worldRevision == r.staged.after.revision && guard == r.staged.guard
        case Err(error) =>
          && Now() == old(Now()) && world.state == old(world.state)
          && receipt.status == REJECTED && receipt.errors == [error] && receipt.created == [] && guard == None
    {
      hide Stage, Committed, Joins, Bounded, ValidEnvelope, BoundedOperations, Evolves, NewIdentities;
      ghost var t, before := Now(), world.state;
      var refusal := NavigationRefusal(Track(slots[..count], cursor, expected), world.state, action, request);
      if refusal.Some? {
        return Denied(request, world.state.revision, refusal.value), None;
      }
      var entry := slots[if action.Undo? then cursor - 1 else cursor];
      var e := request.(operations := if action.Undo? then entry.inverse else entry.forward);
      if |e.operations| > request.budget.maxOperations {
        return Denied(request, world.state.revision, Error("BUDGET_EXCEEDED", None)), None;
      }
      var excess := TextRefusal(pl, e);
      if excess.Some? {
        return Denied(request, world.state.revision, excess.value), None;
      }
      receipt, guard := Apply(pl, world, e, admission, None);
      StagedStatus(pl, before, e, admission);
      if receipt.status == COMMITTED {
        NavigateFaithful(pl, t, contents, before, action, request, admission);
        cursor := if action.Undo? then cursor - 1 else cursor + 1;
        expected := receipt.worldRevision;
      }
    }
  }

  function Denied(e: Envelope, revision: u64, error: Error): Receipt {
    Receipt(REJECTED, VOLATILE, if |e.transactionId| <= 36 then e.transactionId else [], revision, [], [error])
  }

  /** A receipt says committed exactly when the batch was published. */
  lemma StagedStatus(pl: Platform, s: Snapshot, e: Envelope, admission: Option<Admission>)
    requires Committed(s) && Admitted(admission)
    ensures COMMITTED != REJECTED
    ensures
      var r := Stage(pl, s, e, admission, None);
      && (r.Ok? ==> CommittedReceipt(e, r.value).status == COMMITTED && r.value.after.worldId == s.worldId)
      && (r.Err? ==> RejectedReceipt(e, s.revision, r.error, admission.Some?).status == REJECTED)
  {
    hide Stage, Committed, Evolves, NewIdentities;
    assert |COMMITTED| == 9 && |REJECTED| == 8;
    if Stage(pl, s, e, admission, None).Ok? {
      StageCommits(pl, s, e, admission, None);
    }
  }
}
