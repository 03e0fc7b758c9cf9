/** What one batch does to a world: the specification of the Coordinator, as functions on snapshots. */
module Batch {
  import opened Prelude
  import opened Texts
  import opened Geometry
  import opened Forest
  import opened Worlds
  import opened Commands
  import opened PolicyRules

  /** The parts of the run that no operation changes. */
  datatype Context = Context(worldId: Text, seed: u32, maxSlots: u32, next: u64, bindings: Option<seq<Binding>>)

  /** The staged copy, the batch's names and its creations so far, and the guard. */
  datatype Staging = Staging(slots: seq<Slot>, names: map<Text, EntityTarget>, created: seq<Binding>, guard: Option<Guard>)

  predicate Guarded(st: Staging) {
    st.guard.Some? ==> Shaped(st.guard.value)
  }

  function Reject<T>(code: string, operation: nat): Result<T, Error> {
    Err(Error(code, Some(operation)))
  }

  /** The first free slot, or the number of slots when there is none. */
  function FirstFree(slots: seq<Slot>, from: nat): (r: nat)
    requires from <= |slots|
    ensures from <= r <= |slots|
    ensures r < |slots| ==> Free(slots[r])
    ensures forall k :: from <= k < r ==> !Free(slots[k])
    decreases |slots| - from
  {
    if from == |slots| || Free(slots[from]) then from else FirstFree(slots, from + 1)
  }

  function FindUuid(slots: seq<Slot>, uuid: Text, from: nat): (r: nat)
    requires from <= |slots|
    ensures from <= r <= |slots|
    ensures r < |slots| ==> slots[r].uuid == uuid
    ensures forall k :: from <= k < r ==> slots[k].uuid != uuid
    decreases |slots| - from
  {
    if from == |slots| || slots[from].uuid == uuid then from else FindUuid(slots, uuid, from + 1)
  }

  function Identity(target: Target, names: map<Text, EntityTarget>): Option<EntityTarget> {
    match target
    case Temporary(id) => if id in names then Some(names[id]) else None
    case Handle(e) => Some(e)
  }

  /** The live slot a target names. */
  function Resolve(cx: Context, st: Staging, target: Target, operation: nat): (r: Result<nat, Error>)
    ensures r.Ok? ==> r.value < |st.slots| && Live(st.slots[r.value])
  {
    var identity := Identity(target, st.names);
    if identity.None? || identity.value.worldId != cx.worldId then Reject("NOT_FOUND", operation)
    else
      var at := FindUuid(st.slots, identity.value.uuid, 0);
      if at == |st.slots| then Reject("NOT_FOUND", operation)
      else if !Live(st.slots[at]) || st.slots[at].generation != identity.value.generation
      then Reject("STALE_HANDLE", operation)
      else Ok(at)
  }

  function EntityAt(slots: seq<Slot>, i: nat): Entity
    requires i < |slots| && slots[i].entity.Some?
  {
    slots[i].entity.value
  }

  function WithEntity(slots: seq<Slot>, i: nat, e: Entity): (r: seq<Slot>)
    requires i < |slots|
    ensures |r| == |slots|
  {
    slots[i := slots[i].(entity := Some(e))]
  }

  /** The world transform of `i` obtained by composing local transforms down from `root`. */
  function Derived(slots: seq<Slot>, root: nat, i: nat, fuel: nat): Transform
    requires i < |slots| && slots[i].entity.Some?
    decreases fuel
  {
    var e := slots[i].entity.value;
    var up := ParentIndex(slots, i);
    if i == root || fuel == 0 || up < 0 then e.transform
    else Compose(Derived(slots, root, up, fuel - 1), e.local)
  }

  /** Slot `i` after the subtree of `root` has been refreshed. */
  function Refreshed(slots: seq<Slot>, root: nat, revision: u64, i: nat): Slot
    requires i < |slots|
  {
    if slots[i].entity.Some? && Within(Parents(slots), root, i, |slots|) then
      slots[i].(entity := Some(slots[i].entity.value.(
        transform := Derived(slots, root, i, |slots|), revision := revision)))
    else
      slots[i]
  }

  /** The cached transforms and stamps of everything under `root` brought up to date. */
  function Refresh(slots: seq<Slot>, root: nat, revision: u64): (r: seq<Slot>)
    ensures |r| == |slots|
  {
    seq(|slots|, i requires 0 <= i < |slots| => Refreshed(slots, root, revision, i))
  }

  function DoCreate(cx: Context, st: Staging, op: Operation, operation: nat): (r: Result<Staging, Error>)
    requires op.Create? && Guarded(st)
    ensures r.Ok? ==> Guarded(r.value)
  {
    if op.temporaryId in st.names then Reject("INVALID_SCHEMA", operation)
    else if op.prefab != UNIT_CUBE then Reject("NOT_FOUND", operation)
    else
      var at := FirstFree(st.slots, 0);
      if at == |st.slots| >= cx.maxSlots then Reject("BUDGET_EXCEEDED", operation)
      else
        var guard :- HookCreate(st.guard, at, operation);
        var slot := if at < |st.slots| then st.slots[at] else Slot(Uuid(cx.seed, at), 1, false, None);
        var binding := Binding(op.temporaryId, cx.worldId, slot.uuid, slot.generation);
        if cx.bindings.Some? && (|st.created| >= |cx.bindings.value| || cx.bindings.value[|st.created|] != binding)
        then Reject("INVALID_REPLAY", operation)
        else
          var slots := if at < |st.slots| then st.slots else st.slots + [slot];
          Ok(Staging(WithEntity(slots, at, Entity(op.prefab, cx.next, IDENTITY, None, IDENTITY, [])),
                     st.names[op.temporaryId := EntityTarget(cx.worldId, slot.uuid, slot.generation)],
                     st.created + [binding], guard))
  }

  function HookCreate(guard: Option<Guard>, at: nat, operation: nat): (r: Result<Option<Guard>, Error>)
    requires guard.Some? ==> Shaped(guard.value)
    ensures r.Ok? && r.value.Some? ==> Shaped(r.value.value)
  {
    if guard.None? then Ok(None)
    else
      var g :- OnCreate(guard.value, at, operation);
      Ok(Some(g))
  }

  function HookTransform(guard: Option<Guard>, at: nat, before: Transform, after: Transform, operation: nat)
    : (r: Result<Option<Guard>, Error>)
    requires guard.Some? ==> Shaped(guard.value)
    ensures r.Ok? && r.value.Some? ==> Shaped(r.value.value)
  {
    if guard.None? then Ok(None)
    else
      var g :- OnTransform(guard.value, at, before, after, operation);
      Ok(Some(g))
  }

  function HookErase(guard: Option<Guard>, at: nat, before: Transform, operation: nat): (r: Result<Option<Guard>, Error>)
    requires guard.Some? ==> Shaped(guard.value)
    ensures r.Ok? && r.value.Some? ==> Shaped(r.value.value)
  {
    if guard.None? then Ok(None)
    else
      var g :- OnErase(guard.value, at, before, operation);
      Ok(Some(g))
  }

  /** The entity of slot `at` with its new world transform, and its local one when it has a parent. */
  function Placed(slots: seq<Slot>, at: nat, value: Transform): Entity
    requires at < |slots| && slots[at].entity.Some?
    requires var up := ParentIndex(slots, at); up >= 0 ==> Uniform(EntityAt(slots, up).transform.scale)
  {
    var e, up := EntityAt(slots, at), ParentIndex(slots, at);
    e.(transform := value, local := if up >= 0 then Relative(EntityAt(slots, up).transform, value) else e.local)
  }

  function DoTransform(cx: Context, st: Staging, op: Operation, operation: nat): (r: Result<Staging, Error>)
    requires op.SetTransform? && Guarded(st)
    ensures r.Ok? ==> Guarded(r.value)
  {
    if !Proper(op.value) then Reject("INVALID_SCHEMA", operation)
    else
      var at :- Resolve(cx, st, op.target, operation);
      var guard :- HookTransform(st.guard, at, EntityAt(st.slots, at).transform, op.value, operation);
      var up := ParentIndex(st.slots, at);
      if HasChildren(st.slots, at) && !Uniform(op.value.scale) then Reject("INVALID_SCHEMA", operation)
      else if up < 0 && EntityAt(st.slots, at).parent.Some? then Err(Error("STALE_HANDLE", None))
      else if up >= 0 && !Uniform(EntityAt(st.slots, up).transform.scale) then Reject("INVALID_SCHEMA", operation)
      else
        var slots := WithEntity(st.slots, at, Placed(st.slots, at, op.value));
        Ok(st.(slots := Refresh(slots, at, cx.next), guard := guard))
  }

  function DoTags(cx: Context, st: Staging, op: Operation, operation: nat): (r: Result<Staging, Error>)
    requires op.SetTags? && Guarded(st)
    ensures r.Ok? ==> Guarded(r.value)
  {
    var at :- Resolve(cx, st, op.target, operation);
    Ok(st.(slots := WithEntity(st.slots, at, EntityAt(st.slots, at).(tags := Sort(op.tags), revision := cx.next))))
  }

  /** The entity of slot `at` hung under `up`, or cut loose when `up` is negative. */
  function Hung(slots: seq<Slot>, at: nat, up: int, mode: Mode): Entity
    requires at < |slots| && slots[at].entity.Some?
    requires up < |slots|
    requires up >= 0 ==> slots[up].entity.Some? && Uniform(EntityAt(slots, up).transform.scale)
  {
    var e := EntityAt(slots, at);
    var local := if e.parent.Some? then e.local else e.transform;
    if up < 0 then
      e.(transform := if mode.PreserveLocal? then local else e.transform, parent := None, local := IDENTITY)
    else
      var anchor, id := EntityAt(slots, up).transform, Some(ParentIdentity(slots[up].uuid, slots[up].generation));
      if mode.PreserveWorld? then e.(local := Relative(anchor, e.transform), parent := id)
      else e.(local := local, transform := Compose(anchor, local), parent := id)
  }

  function DoReparent(cx: Context, st: Staging, op: Operation, operation: nat): (r: Result<Staging, Error>)
    requires op.Reparent? && Guarded(st)
    ensures r.Ok? ==> Guarded(r.value)
  {
    var at :- Resolve(cx, st, op.target, operation);
    var up :- if op.parent.Some? then ResolveParent(cx, st, op.parent.value, operation) else Ok(-1);
    if up >= 0 && Within(Parents(st.slots), at, up, |st.slots|) then Reject("INVALID_SCHEMA", operation)
    else if up >= 0 && !Uniform(EntityAt(st.slots, up).transform.scale) then Reject("INVALID_SCHEMA", operation)
    else
      var slots := WithEntity(st.slots, at, Hung(st.slots, at, up, op.mode));
      Ok(st.(slots := Refresh(slots, at, cx.next)))
  }

  function ResolveParent(cx: Context, st: Staging, target: Target, operation: nat): (r: Result<int, Error>)
    ensures r.Ok? ==> 0 <= r.value < |st.slots| && Live(st.slots[r.value])
  {
    var up :- Resolve(cx, st, target, operation);
    Ok(up)
  }

  /** An emptied slot moves on to its next generation; the last generation retires it. */
  function Vacated(slot: Slot): Slot {
    if slot.generation == U64_MAX then slot.(entity := None, retired := true)
    else slot.(entity := None, generation := slot.generation + 1)
  }

  function DoDelete(cx: Context, st: Staging, op: Operation, operation: nat): (r: Result<Staging, Error>)
    requires op.Delete? && Guarded(st)
    ensures r.Ok? ==> Guarded(r.value)
  {
    var at :- Resolve(cx, st, op.target, operation);
    if HasChildren(st.slots, at) then Reject("INVALID_SCHEMA", operation)
    else
      var guard :- HookErase(st.guard, at, EntityAt(st.slots, at).transform, operation);
      Ok(st.(slots := st.slots[at := Vacated(st.slots[at])], guard := guard))
  }

  function Step(cx: Context, st: Staging, op: Operation, operation: nat): (r: Result<Staging, Error>)
    requires Guarded(st)
    ensures r.Ok? ==> Guarded(r.value)
  {
    match op
    case Create(_, _) => DoCreate(cx, st, op, operation)
    case SetTransform(_, _) => DoTransform(cx, st, op, operation)
    case SetTags(_, _) => DoTags(cx, st, op, operation)
    case Reparent(_, _, _) => DoReparent(cx, st, op, operation)
    case Delete(_) => DoDelete(cx, st, op, operation)
  }

  /** The staging after the first `n` operations. */
  function Steps(cx: Context, st: Staging, ops: seq<Operation>, n: nat): (r: Result<Staging, Error>)
    requires n <= |ops| && Guarded(st)
    ensures r.Ok? ==> Guarded(r.value)
  {
    if n == 0 then Ok(st)
    else
      var before :- Steps(cx, st, ops, n - 1);
      Step(cx, before, ops[n - 1], n - 1)
  }

  /** What a successful batch publishes. */
  datatype Staged = Staged(after: Snapshot, created: seq<Binding>, guard: Option<Guard>)

  predicate Admitted(admission: Option<Admission>) {
    admission.Some? ==> ShapedLedger(admission.value.ledger) && admission.value.principal < PRINCIPALS
  }

  function Start(admission: Option<Admission>, s: Snapshot, e: Envelope): (r: Result<Option<Guard>, Error>)
    requires Admitted(admission)
    ensures r.Ok? && r.value.Some? ==> Shaped(r.value.value)
  {
    if admission.None? then Ok(None)
    else
      var g :- Begin(admission.value, s, e);
      Ok(Some(g))
  }

  /** The checks on the headers that precede staging. */
  function Headers(pl: Platform, s: Snapshot, e: Envelope): Option<Error> {
    if Serialize(pl, e).None? then Some(Error("INVALID_SCHEMA", None))
    else if e.worldId != s.worldId then Some(Error("NOT_FOUND", None))
    else if e.expectedRevision != s.revision then Some(Error("REVISION_CONFLICT", None))
    else if s.revision == U64_MAX then Some(Error("BUDGET_EXCEEDED", None))
    else None
  }

  function Close(s: Snapshot, next: u64, bindings: Option<seq<Binding>>, st: Staging): (r: Result<Staged, Error>)
    requires Guarded(st)
  {
    if bindings.Some? && |st.created| != |bindings.value| then Err(Error("INVALID_REPLAY", None))
    else if st.guard.Some? && Finish(st.guard.value).Err? then Err(Finish(st.guard.value).error)
    else Ok(Staged(s.(version := FormatVersion(st.slots), revision := next, slots := st.slots), st.created, st.guard))
  }

  /** A whole batch on a world: all of its operations, or the first rejection. */
  function Stage(pl: Platform, s: Snapshot, e: Envelope, admission: Option<Admission>, bindings: Option<seq<Binding>>)
    : (r: Result<Staged, Error>)
    requires Admitted(admission)
  {
    var guard :- Start(admission, s, e);
    var bad := Headers(pl, s, e);
    if bad.Some? then Err(bad.value)
    else
      var cx := Context(s.worldId, s.seed, s.maxSlots, s.revision + 1, bindings);
      var st :- Steps(cx, Staging(s.slots, map[], [], guard), e.operations, |e.operations|);
      Close(s, cx.next, bindings, st)
  }
}
