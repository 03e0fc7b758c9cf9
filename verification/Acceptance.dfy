/** When each operation of a batch is accepted, and what its targets name. */
module Acceptance {
  import opened Prelude
  import opened Texts
  import opened Geometry
  import opened Forest
  import opened Worlds
  import opened Commands
  import opened PolicyRules
  import opened Batch
  import opened Hierarchy
  import opened Operations
  import opened Effects
  import opened Lifetimes

  // Targets

  function HandleAt(cx: Context, slots: seq<Slot>, at: nat): EntityTarget
    requires at < |slots|
  {
    EntityTarget(cx.worldId, slots[at].uuid, slots[at].generation)
  }

  /** The target means the live slot `at`: by its handle, or by the name a create of this batch gave it. */
  predicate Names(cx: Context, st: Staging, target: Target, at: nat) {
    && at < |st.slots| && Live(st.slots[at])
    && match target
       case Temporary(id) => id in st.names && st.names[id] == HandleAt(cx, st.slots, at)
       case Handle(e) => e == HandleAt(cx, st.slots, at)
  }

  lemma SoundNamed(cx: Context, slots: seq<Slot>, i: nat)
    requires StagedSound(cx, slots) && i < |slots|
    ensures slots[i].uuid == Uuid(cx.seed, i) && i < SLOT_LIMIT && slots[i].generation >= 1
  {
    hide LinkSound, ScaleSound, Coherent, Acyclic;
    assert SlotSound(cx.seed, slots[i], i);
  }

  lemma {:induction false} FoundAt(cx: Context, slots: seq<Slot>, at: nat)
    requires StagedSound(cx, slots) && at < |slots|
    ensures FindUuid(slots, slots[at].uuid, 0) == at
  {
    hide StagedSound;
    var found := FindUuid(slots, slots[at].uuid, 0);
    SoundNamed(cx, slots, at);
    SoundNamed(cx, slots, found);
    UuidInjective(cx.seed, found, at);
  }

  /** A target resolves to exactly the slot it means. */
  lemma ResolveExact(cx: Context, st: Staging, target: Target, operation: nat, at: nat)
    requires StagedSound(cx, st.slots)
    ensures Resolve(cx, st, target, operation) == Ok(at) <==> Names(cx, st, target, at)
  {
    hide StagedSound, FindUuid;
    if Names(cx, st, target, at) {
      FoundAt(cx, st.slots, at);
    }
  }

  /** A target that means no live slot is refused: as unknown, or as stale when its UUID is known. */
  lemma ResolveRefuses(cx: Context, st: Staging, target: Target, operation: nat)
    requires StagedSound(cx, st.slots) && forall at :: 0 <= at < |st.slots| ==> !Names(cx, st, target, at)
    ensures
      var identity := Identity(target, st.names);
      var known := identity.Some? && identity.value.worldId == cx.worldId
                   && exists i :: 0 <= i < |st.slots| && st.slots[i].uuid == identity.value.uuid;
      Resolve(cx, st, target, operation) == Reject(if known then "STALE_HANDLE" else "NOT_FOUND", operation)
  {
    var r := Resolve(cx, st, target, operation);
    if r.Ok? {
      ResolveExact(cx, st, target, operation, r.value);
    }
  }

  // Operations

  /** The slot a create fills. */
  predicate HasRoom(cx: Context, slots: seq<Slot>) {
    |slots| < cx.maxSlots || exists i :: 0 <= i < |slots| && Free(slots[i])
  }

  /** What the guard of the batch, if there is one, says to the operation. */
  predicate GuardAllows(st: Staging, op: Operation, operation: nat, at: nat)
    requires Guarded(st) && (op.Create? || (at < |st.slots| && st.slots[at].entity.Some?))
  {
    match op
    case Create(_, _) => HookCreate(st.guard, at, operation).Ok?
    case SetTransform(_, value) => HookTransform(st.guard, at, EntityAt(st.slots, at).transform, value, operation).Ok?
    case Delete(_) => HookErase(st.guard, at, EntityAt(st.slots, at).transform, operation).Ok?
    case _ => true
  }

  /** A replayed create has to be the recorded one. */
  predicate Recorded(cx: Context, st: Staging, id: Text) {
    cx.bindings.Some? ==>
      && |st.created| < |cx.bindings.value|
      && var at := FirstFree(st.slots, 0);
         var (uuid, generation) := if at < |st.slots| then (st.slots[at].uuid, st.slots[at].generation) else (Uuid(cx.seed, at), 1);
         cx.bindings.value[|st.created|] == Binding(id, cx.worldId, uuid, generation)
  }

  /** What an operation on slot `at` demands of the world. */
  predicate Admissible(slots: seq<Slot>, op: Operation, at: nat, up: Option<nat>)
    requires at < |slots| && !op.Create? && (up.Some? ==> up.value < |slots| && slots[up.value].entity.Some?)
  {
    match op
    case SetTransform(_, value) => Proper(value) && (HasChildren(slots, at) ==> Uniform(value.scale))
    case Delete(_) => !HasChildren(slots, at)
    case Reparent(_, _, _) => up.Some? ==> !Within(Parents(slots), at, up.value, |slots|) && Uniform(EntityAt(slots, up.value).transform.scale)
    case _ => true
  }

  /** A create is accepted exactly when its name is new in the batch, the prefab is known, there is room, and neither the
      guard nor a replayed log objects. */
  lemma CreateAccepted(cx: Context, st: Staging, op: Operation, operation: nat)
    requires StagedSound(cx, st.slots) && Guarded(st) && op.Create?
    ensures Step(cx, st, op, operation).Ok? <==>
      && op.temporaryId !in st.names && op.prefab == UNIT_CUBE && HasRoom(cx, st.slots)
      && GuardAllows(st, op, operation, FirstFree(st.slots, 0)) && Recorded(cx, st, op.temporaryId)
  {
    hide StagedSound, HookCreate, Uuid;
  }

  /** Any other operation is accepted exactly when its target means a live slot (and its new parent another), the world
      admits it there, and the guard does. */
  lemma OperationAccepted(cx: Context, st: Staging, op: Operation, operation: nat, at: nat)
    requires StagedSound(cx, st.slots) && Guarded(st) && !op.Create? && (op.Reparent? ==> op.parent.None?)
    requires Names(cx, st, op.target, at)
    ensures Step(cx, st, op, operation).Ok? <==> Admissible(st.slots, op, at, None) && GuardAllows(st, op, operation, at)
  {
    ResolveExact(cx, st, op.target, operation, at);
    Linked(cx, st.slots, at);
    hide StagedSound, HookTransform, HookErase, Resolve, Refresh, Placed, Hung, Sort, Proper, Uniform, Within, Parents, Names;
  }

  /** A live slot has its parent, if it refers to one, and that has positive uniform scale. */
  lemma Linked(cx: Context, slots: seq<Slot>, at: nat)
    requires StagedSound(cx, slots) && at < |slots| && slots[at].entity.Some?
    ensures
      var up := ParentIndex(slots, at);
      && (EntityAt(slots, at).parent.Some? ==> up >= 0)
      && (up >= 0 ==> slots[up].entity.Some? && Uniform(EntityAt(slots, up).transform.scale))
  {
    hide Coherent, Acyclic, SlotSound, Uniform;
    assert LinkSound(slots, at) && ScaleSound(slots, at);
  }

  lemma ReparentAccepted(cx: Context, st: Staging, op: Operation, operation: nat, at: nat, up: nat)
    requires StagedSound(cx, st.slots) && Guarded(st) && op.Reparent? && op.parent.Some?
    requires Names(cx, st, op.target, at) && Names(cx, st, op.parent.value, up)
    ensures Step(cx, st, op, operation).Ok? <==> Admissible(st.slots, op, at, Some(up))
  {
    ResolveExact(cx, st, op.target, operation, at);
    ResolveExact(cx, st, op.parent.value, operation, up);
    hide StagedSound, Resolve, Refresh, Hung, Uniform, Within, Parents, Names;
  }

  lemma UnnamedRefused(cx: Context, st: Staging, op: Operation, operation: nat)
    requires StagedSound(cx, st.slots) && Guarded(st) && !op.Create?
    ensures (forall at :: 0 <= at < |st.slots| ==> !Names(cx, st, op.target, at)) ==> Step(cx, st, op, operation).Err?
    ensures op.Reparent? && op.parent.Some? && (forall up :: 0 <= up < |st.slots| ==> !Names(cx, st, op.parent.value, up)) ==>
      Step(cx, st, op, operation).Err?
  {
    if forall at :: 0 <= at < |st.slots| ==> !Names(cx, st, op.target, at) {
      ResolveRefuses(cx, st, op.target, operation);
    }
    if op.Reparent? && op.parent.Some? && forall up :: 0 <= up < |st.slots| ==> !Names(cx, st, op.parent.value, up) {
      ResolveRefuses(cx, st, op.parent.value, operation);
    }
    hide StagedSound, HookTransform, HookErase, Resolve, Refresh, Placed, Hung, Sort, Proper, Uniform, Within, Parents, Names;
  }

  // Names within a batch

  /** The name was given to an entity of this batch that is gone. */
  predicate NamesGone(cx: Context, st: Staging, id: Text) {
    id in st.names && st.names[id].worldId == cx.worldId && Stale(st.slots, st.names[id].uuid, st.names[id].generation)
  }

  /** A create gives its name to the slot it fills. */
  lemma CreateNames(cx: Context, st: Staging, op: Operation, operation: nat)
    requires Guarded(st) && op.Create? && Step(cx, st, op, operation).Ok?
    ensures Names(cx, Step(cx, st, op, operation).value, Temporary(op.temporaryId), FirstFree(st.slots, 0))
  {
    CreateEffect(cx, st, op, operation);
  }

  /** One operation keeps a name meaning its slot, unless it deletes just that one. */
  lemma NameKept(cx: Context, st: Staging, op: Operation, operation: nat, id: Text, at: nat)
    requires StagedSound(cx, st.slots) && Guarded(st) && Stamped(st.slots, cx.next) && Step(cx, st, op, operation).Ok?
    requires Names(cx, st, Temporary(id), at)
    ensures
      var st' := Step(cx, st, op, operation).value;
      if op.Delete? && Names(cx, st, op.target, at) then NamesGone(cx, st', id) else Names(cx, st', Temporary(id), at)
  {
    var st' := Step(cx, st, op, operation).value;
    NamesOnlyGrow(cx, st, op, operation);
    StepEvolves(cx, st, op, operation);
    assert SlotEvolves(st.slots[at], st'.slots[at], cx.next);
    if op.Delete? {
      var gone := Resolve(cx, st, op.target, operation).value;
      ResolveExact(cx, st, op.target, operation, gone);
      DeleteEffect(cx, st, op, operation);
      hide Resolve;
      if gone == at {
        assert StaleAt(st'.slots[at], st.slots[at].uuid, st.slots[at].generation);
      } else if Names(cx, st, op.target, at) {
        ResolveExact(cx, st, op.target, operation, at);
      }
    } else {
      GenerationKept(cx, st, op, operation, at);
    }
  }

  lemma NamesOnlyGrow(cx: Context, st: Staging, op: Operation, operation: nat)
    requires Guarded(st) && Step(cx, st, op, operation).Ok?
    ensures forall id :: id in st.names ==> id in Step(cx, st, op, operation).value.names && Step(cx, st, op, operation).value.names[id] == st.names[id]
  {
    hide Resolve, HookCreate, HookTransform, HookErase, Refresh, Sort, Placed, Hung, Within;
  }

  /** Only a delete changes a generation or retires a slot. */
  lemma GenerationKept(cx: Context, st: Staging, op: Operation, operation: nat, at: nat)
    requires StagedSound(cx, st.slots) && Guarded(st) && Step(cx, st, op, operation).Ok? && !op.Delete?
    requires at < |st.slots| && Live(st.slots[at])
    ensures
      var slots := Step(cx, st, op, operation).value.slots;
      && at < |slots| && slots[at].uuid == st.slots[at].uuid && slots[at].generation == st.slots[at].generation && Live(slots[at])
  {
    hide StagedSound, HookCreate, HookTransform, Sort, Placed, Hung, Within, Derived;
    ResolvedLive(cx, st, if op.Create? then Temporary(op.temporaryId) else op.target, operation);
    hide Resolve;
  }

  lemma {:induction false} StepsPrefix(cx: Context, st: Staging, ops: seq<Operation>, m: nat, n: nat)
    requires Guarded(st) && m <= n <= |ops| && Steps(cx, st, ops, n).Ok?
    ensures Steps(cx, st, ops, m).Ok?
    decreases n
  {
    hide Step;
    if m < n {
      StepsPrefix(cx, st, ops, m, n - 1);
    }
  }

  /** One of these operations deleted what slot `at` held at that time. */
  ghost predicate DeletedBetween(cx: Context, st: Staging, ops: seq<Operation>, m: nat, n: nat, at: nat)
    requires Guarded(st) && n <= |ops|
  {
    exists k :: m <= k < n && ops[k].Delete? && Steps(cx, st, ops, k).Ok? && Names(cx, Steps(cx, st, ops, k).value, ops[k].target, at)
  }

  /** Through the rest of a batch a name given by a create means the slot it was given, until an operation deletes that;
      from then on it is stale, even when the slot is filled again. */
  lemma {:induction false} NameThroughBatch(cx: Context, st: Staging, ops: seq<Operation>, m: nat, n: nat, id: Text, at: nat, operation: nat)
    requires StagedSound(cx, st.slots) && Guarded(st) && Stamped(st.slots, cx.next) && st.created == []
    requires forall i :: 0 <= i < |ops| ==> OperationFits(ops[i])
    requires m <= n <= |ops| && Steps(cx, st, ops, n).Ok?
    requires Steps(cx, st, ops, m).Ok? && Names(cx, Steps(cx, st, ops, m).value, Temporary(id), at)
    ensures Resolve(cx, Steps(cx, st, ops, n).value, Temporary(id), operation) ==
      if DeletedBetween(cx, st, ops, m, n, at) then Reject("STALE_HANDLE", operation) else Ok(at)
  {
    NameOrGone(cx, st, ops, m, n, id, at);
    StepsEvolve(cx, st, ops, n);
    var x := Steps(cx, st, ops, n).value;
    if DeletedBetween(cx, st, ops, m, n, at) {
      GoneStale(cx, x, id, operation);
    } else {
      ResolveExact(cx, x, Temporary(id), operation, at);
    }
  }

  lemma {:induction false} NameOrGone(cx: Context, st: Staging, ops: seq<Operation>, m: nat, n: nat, id: Text, at: nat)
    requires StagedSound(cx, st.slots) && Guarded(st) && Stamped(st.slots, cx.next) && st.created == []
    requires forall i :: 0 <= i < |ops| ==> OperationFits(ops[i])
    requires m <= n <= |ops| && Steps(cx, st, ops, n).Ok?
    requires Steps(cx, st, ops, m).Ok? && Names(cx, Steps(cx, st, ops, m).value, Temporary(id), at)
    ensures
      var x := Steps(cx, st, ops, n).value;
      if DeletedBetween(cx, st, ops, m, n, at) then NamesGone(cx, x, id) else Names(cx, x, Temporary(id), at)
    decreases n
  {
    hide Step, Names, NamesGone, StagedSound, Stamped;
    if m < n {
      StepsPrefix(cx, st, ops, n - 1, n);
      NameOrGone(cx, st, ops, m, n - 1, id, at);
      StepsEvolve(cx, st, ops, n - 1);
      var before := Steps(cx, st, ops, n - 1).value;
      if DeletedBetween(cx, st, ops, m, n - 1, at) {
        GoneStays(cx, before, ops[n - 1], n - 1, id);
      } else {
        NameKept(cx, before, ops[n - 1], n - 1, id, at);
      }
    }
  }

  lemma GoneStays(cx: Context, st: Staging, op: Operation, operation: nat, id: Text)
    requires StagedSound(cx, st.slots) && Guarded(st) && Stamped(st.slots, cx.next) && Step(cx, st, op, operation).Ok?
    requires NamesGone(cx, st, id)
    ensures NamesGone(cx, Step(cx, st, op, operation).value, id)
  {
    hide Step, StagedSound, Stale;
    NamesOnlyGrow(cx, st, op, operation);
    StepEvolves(cx, st, op, operation);
    BoundStays(st.slots, Step(cx, st, op, operation).value.slots, cx.next, st.names[id].uuid, st.names[id].generation);
  }

  lemma GoneStale(cx: Context, st: Staging, id: Text, operation: nat)
    requires StagedSound(cx, st.slots) && NamesGone(cx, st, id)
    ensures Resolve(cx, st, Temporary(id), operation) == Reject("STALE_HANDLE", operation)
  {
    hide StagedSound;
    var e := st.names[id];
    var i :| 0 <= i < |st.slots| && StaleAt(st.slots[i], e.uuid, e.generation);
    SoundNamed(cx, st.slots, i);
    forall at | 0 <= at < |st.slots|
      ensures !Names(cx, st, Temporary(id), at)
    {
      SoundNamed(cx, st.slots, at);
      if st.slots[at].uuid == e.uuid {
        UuidInjective(cx.seed, i, at);
      }
    }
    ResolveRefuses(cx, st, Temporary(id), operation);
  }

  // Creating and placing

  function CreateAndPlace(id: Text, value: Transform): seq<Operation> {
    [Create(id, UNIT_CUBE), SetTransform(Temporary(id), value)]
  }

  /** Nothing refers to a slot that has just been filled. */
  lemma CreatedAlone(cx: Context, st: Staging, op: Operation, operation: nat)
    requires StagedSound(cx, st.slots) && Guarded(st) && op.Create? && Step(cx, st, op, operation).Ok?
    ensures
      var (slots, at) := (Step(cx, st, op, operation).value.slots, FirstFree(st.slots, 0));
      at < |slots| && Live(slots[at]) && !HasChildren(slots, at)
  {
    var (slots, at) := (Step(cx, st, op, operation).value.slots, FirstFree(st.slots, 0));
    CreateEffect(cx, st, op, operation);
    CreatedUuid(cx, st, op, operation);
    forall c | 0 <= c < |slots| && c != at
      ensures !ChildOf(slots[c], slots[at])
    {
      if ChildOf(slots[c], slots[at]) {
        NoDeadParent(cx, st.slots, c, at, slots[at]);
      }
    }
  }

  lemma CreatedUuid(cx: Context, st: Staging, op: Operation, operation: nat)
    requires StagedSound(cx, st.slots) && Guarded(st) && op.Create? && Step(cx, st, op, operation).Ok?
    ensures
      var (slots, at) := (Step(cx, st, op, operation).value.slots, FirstFree(st.slots, 0));
      at < |slots| && slots[at].uuid == Uuid(cx.seed, at) && !slots[at].retired && at < SLOT_LIMIT
  {
    hide HookCreate, LinkSound, ScaleSound, Coherent, Acyclic;
    var at := FirstFree(st.slots, 0);
    assert at < |st.slots| ==> SlotSound(cx.seed, st.slots[at], at);
  }

  lemma NoDeadParent(cx: Context, slots: seq<Slot>, c: nat, at: nat, slot: Slot)
    requires StagedSound(cx, slots) && c < |slots| && at < SLOT_LIMIT && slot.uuid == Uuid(cx.seed, at)
    requires at < |slots| ==> Free(slots[at])
    ensures !ChildOf(slots[c], slot)
  {
    if ChildOf(slots[c], slot) {
      hide Coherent, Acyclic, ScaleSound;
      assert LinkSound(slots, c);
      var up := ParentIndex(slots, c);
      SoundNamed(cx, slots, up);
      UuidInjective(cx.seed, up, at);
      assert false;
    }
  }

  /** Creating a cube and placing it in one batch is accepted exactly when there is room and the guard allows both;
      the cube then stands where it was put. */
  lemma {:induction false} CreateThenPlace(cx: Context, st: Staging, id: Text, value: Transform)
    requires StagedSound(cx, st.slots) && Guarded(st) && cx.bindings.None? && id !in st.names && Proper(value)
    ensures
      var (at, r) := (FirstFree(st.slots, 0), Steps(cx, st, CreateAndPlace(id, value), 2));
      && (r.Ok? <==>
            && HasRoom(cx, st.slots) && HookCreate(st.guard, at, 0).Ok?
            && HookTransform(HookCreate(st.guard, at, 0).value, at, IDENTITY, value, 1).Ok?)
      && (r.Ok? ==> at < |r.value.slots| && r.value.slots[at].entity == Some(Entity(UNIT_CUBE, cx.next, value, None, IDENTITY, [])))
  {
    hide StagedSound, Step, HookCreate, HookTransform, Proper, HasRoom;
    var (ops, at) := (CreateAndPlace(id, value), FirstFree(st.slots, 0));
    assert Steps(cx, st, ops, 1) == Step(cx, st, ops[0], 0);
    CreateAccepted(cx, st, ops[0], 0);
    if Steps(cx, st, ops, 1).Ok? {
      PlaceCreated(cx, st, id, value);
    }
  }

  lemma PlaceCreated(cx: Context, st: Staging, id: Text, value: Transform)
    requires StagedSound(cx, st.slots) && Guarded(st) && Proper(value) && Step(cx, st, Create(id, UNIT_CUBE), 0).Ok?
    ensures
      var (at, op) := (FirstFree(st.slots, 0), SetTransform(Temporary(id), value));
      var x := Step(cx, st, Create(id, UNIT_CUBE), 0).value;
      && HookCreate(st.guard, at, 0).Ok?
      && (Step(cx, x, op, 1).Ok? <==> HookTransform(HookCreate(st.guard, at, 0).value, at, IDENTITY, value, 1).Ok?)
      && (Step(cx, x, op, 1).Ok? ==>
            var slots := Step(cx, x, op, 1).value.slots;
            at < |slots| && slots[at].entity == Some(Entity(UNIT_CUBE, cx.next, value, None, IDENTITY, [])))
  {
    var (at, create, op) := (FirstFree(st.slots, 0), Create(id, UNIT_CUBE), SetTransform(Temporary(id), value));
    var x := Step(cx, st, create, 0).value;
    CreateEffect(cx, st, create, 0);
    CreateNames(cx, st, create, 0);
    CreatedAlone(cx, st, create, 0);
    StepSound(cx, st, create, 0);
    OperationAccepted(cx, x, op, 1, at);
    CreateGuard(cx, st, create, 0);
    ResolveExact(cx, x, Temporary(id), 1, at);
    if Step(cx, x, op, 1).Ok? {
      TransformEffect(cx, x, op, 1);
      RootLocal(cx, x, op, 1, at);
    }
    hide StagedSound, HookCreate, HookTransform, Proper, Resolve, Refresh, Placed;
  }

  lemma CreateGuard(cx: Context, st: Staging, op: Operation, operation: nat)
    requires Guarded(st) && op.Create? && Step(cx, st, op, operation).Ok?
    ensures HookCreate(st.guard, FirstFree(st.slots, 0), operation) == Ok(Step(cx, st, op, operation).value.guard)
  {
    hide HookCreate, Uuid;
  }

  /** A slot without a parent keeps its local transform. */
  lemma RootLocal(cx: Context, st: Staging, op: Operation, operation: nat, at: nat)
    requires StagedSound(cx, st.slots) && Guarded(st) && op.SetTransform? && Names(cx, st, op.target, at)
    requires EntityAt(st.slots, at).parent.None? && Step(cx, st, op, operation).Ok?
    ensures
      var slots := Step(cx, st, op, operation).value.slots;
      at < |slots| && slots[at].entity.Some? && EntityAt(slots, at).local == EntityAt(st.slots, at).local
  {
    ResolveExact(cx, st, op.target, operation, at);
    hide StagedSound, HookTransform, Resolve, Refresh, Proper, Uniform;
    var moved := WithEntity(st.slots, at, Placed(st.slots, at, op.value));
    RefreshTouches(moved, at, cx.next);
  }
}
