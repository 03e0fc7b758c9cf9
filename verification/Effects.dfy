/** What each operation is for: which slots it changes, and to what. */
module Effects {
  import opened Prelude
  import opened Texts
  import opened Geometry
  import opened Forest
  import opened Worlds
  import opened Commands
  import opened PolicyRules
  import opened Batch
  import opened Hierarchy
  import opened Operations

  /** `b` is the entity `a`, moved and stamped because an ancestor moved. */
  predicate CarriedAlong(a: Entity, b: Entity, next: u64) {
    b == a.(transform := b.transform, revision := next)
  }

  /** Outside the subtree of `at` nothing changes; inside it only world transforms and stamps do. */
  predicate OnlySubtree(slots: seq<Slot>, after: seq<Slot>, at: nat, next: u64)
    requires at < |slots|
  {
    && |after| == |slots|
    && forall i :: 0 <= i < |slots| && i != at ==>
         if slots[i].entity.Some? && Within(Parents(slots), at, i, |slots|) then
           && after[i] == slots[i].(entity := after[i].entity) && after[i].entity.Some?
           && CarriedAlong(EntityAt(slots, i), EntityAt(after, i), next)
         else after[i] == slots[i]
  }

  /** No world transform changes. */
  predicate StandsStill(slots: seq<Slot>, after: seq<Slot>) {
    && |after| == |slots|
    && forall i :: 0 <= i < |slots| && slots[i].entity.Some? ==>
         after[i].entity.Some? && EntityAt(after, i).transform == EntityAt(slots, i).transform
  }

  lemma RefreshTouches(slots: seq<Slot>, at: nat, next: u64)
    requires at < |slots| && slots[at].entity.Some?
    ensures OnlySubtree(slots, Refresh(slots, at, next), at, next)
    ensures Refresh(slots, at, next)[at] == slots[at].(entity := Some(EntityAt(slots, at).(revision := next)))
  {
    hide Compose, Derived;
    DerivedRoot(slots, at, |slots|);
  }

  lemma {:induction false} DerivedRoot(slots: seq<Slot>, at: nat, f: nat)
    requires at < |slots| && slots[at].entity.Some?
    ensures Derived(slots, at, at, f) == EntityAt(slots, at).transform
  {
    hide Compose;
  }

  /** Setting a transform gives the slot exactly that world transform; its descendants keep their place
      relative to it, and nothing else changes. */
  lemma TransformEffect(cx: Context, st: Staging, op: Operation, operation: nat)
    requires StagedSound(cx, st.slots) && Guarded(st) && op.SetTransform? && DoTransform(cx, st, op, operation).Ok?
    ensures
      var at := Resolve(cx, st, op.target, operation).value;
      var (slots, after) := (st.slots, DoTransform(cx, st, op, operation).value.slots);
      && |after| == |slots| && after[at].entity.Some?
      && EntityAt(after, at) == EntityAt(slots, at).(transform := op.value, local := EntityAt(after, at).local, revision := cx.next)
      && OnlySubtree(slots, after, at, cx.next)
  {
    hide Compose, Proper, Uniform, Relative, Refresh, SoundBut, OnlySubtree, HookTransform, Resolve;
    var at, slots := Resolve(cx, st, op.target, operation).value, st.slots;
    ResolvedLive(cx, st, op.target, operation);
    var moved := WithEntity(slots, at, Placed(slots, at, op.value));
    RefreshTouches(moved, at, cx.next);
    ParentsSame(slots, moved);
    SameSubtree(slots, moved, Refresh(moved, at, cx.next), at, cx.next);
  }

  lemma ResolvedLive(cx: Context, st: Staging, target: Target, operation: nat)
    ensures Resolve(cx, st, target, operation).Ok? ==>
      Resolve(cx, st, target, operation).value < |st.slots| && Live(st.slots[Resolve(cx, st, target, operation).value])
  {
    hide FindUuid, Identity;
  }

  lemma SameSubtree(slots: seq<Slot>, moved: seq<Slot>, after: seq<Slot>, at: nat, next: u64)
    requires at < |slots| == |moved| && Parents(moved) == Parents(slots) && OnlySubtree(moved, after, at, next)
    requires forall i :: 0 <= i < |slots| && i != at ==> moved[i] == slots[i]
    ensures OnlySubtree(slots, after, at, next)
  {
    hide Within, Parents;
  }

  /** Re-parenting under preserve_world moves nothing: every world transform, the slot's and its descendants', stays
      as it was, and the slot gets exactly the requested parent. Under preserve_local the slot keeps its local
      transform (its world transform when it had no parent) in the new frame. */
  lemma ReparentEffect(cx: Context, st: Staging, op: Operation, operation: nat)
    requires StagedSound(cx, st.slots) && Guarded(st) && op.Reparent? && DoReparent(cx, st, op, operation).Ok?
    ensures
      var at := Resolve(cx, st, op.target, operation).value;
      var (slots, after) := (st.slots, DoReparent(cx, st, op, operation).value.slots);
      && |after| == |slots| && after[at].entity.Some?
      && (op.mode.PreserveWorld? ==> StandsStill(slots, after))
      && (op.parent.None? ==> EntityAt(after, at).parent.None?)
      && (op.parent.Some? ==>
            var up := Resolve(cx, st, op.parent.value, operation).value;
            && EntityAt(after, at).parent == Some(ParentIdentity(slots[up].uuid, slots[up].generation))
            && !Within(Parents(slots), at, up, |slots|)
            && EntityAt(after, at).transform == Compose(EntityAt(slots, up).transform, EntityAt(after, at).local))
      && (op.mode.PreserveLocal? ==>
            var own := if EntityAt(slots, at).parent.Some? then EntityAt(slots, at).local else EntityAt(slots, at).transform;
            if op.parent.Some? then EntityAt(after, at).local == own else EntityAt(after, at).transform == own)
      && (forall i :: 0 <= i < |slots| && i != at && slots[i].entity.Some? ==>
            after[i].entity.Some? && EntityAt(after, i).parent == EntityAt(slots, i).parent && EntityAt(after, i).local == EntityAt(slots, i).local)
  {
    hide Compose, Proper, Uniform, Relative, Refresh, Within, Resolve, Sound, SoundBut;
    var at, slots := Resolve(cx, st, op.target, operation).value, st.slots;
    ResolvedLive(cx, st, op.target, operation);
    var up: int := -1;
    if op.parent.Some? {
      up := Resolve(cx, st, op.parent.value, operation).value;
      ResolvedLive(cx, st, op.parent.value, operation);
    }
    var moved := WithEntity(slots, at, Hung(slots, at, up, op.mode));
    RefreshTouches(moved, at, cx.next);
    HungScale(cx.seed, slots, at, up, op.mode);
    HungParents(cx.seed, slots, at, up, op.mode);
    if op.mode.PreserveWorld? {
      WorldKept(cx.seed, slots, moved, at, up, cx.next);
    }
    TouchedKeeps(moved, Refresh(moved, at, cx.next), at, cx.next);
  }

  lemma TouchedKeeps(slots: seq<Slot>, after: seq<Slot>, at: nat, next: u64)
    requires at < |slots| && OnlySubtree(slots, after, at, next)
    ensures forall i :: 0 <= i < |slots| && i != at && slots[i].entity.Some? ==>
      after[i].entity.Some? && EntityAt(after, i).parent == EntityAt(slots, i).parent && EntityAt(after, i).local == EntityAt(slots, i).local
  {
    hide Within, Parents;
  }

  /** Derived transforms below a slot that did not move are the cached ones. */
  lemma {:induction false} DerivedKept(seed: u32, slots: seq<Slot>, moved: seq<Slot>, at: nat, up: int, i: nat, f: nat)
    requires Sound(seed, slots) && at < |slots| == |moved| && -1 <= up < |slots| && i < |slots| && slots[i].entity.Some?
    requires forall k :: 0 <= k < |slots| && k != at ==> moved[k] == slots[k]
    requires slots[at].entity.Some? && moved[at].entity.Some? && EntityAt(moved, at).transform == EntityAt(slots, at).transform
    requires Parents(moved) == Parents(slots)[at := up]
    ensures Derived(moved, at, i, f) == EntityAt(slots, i).transform
    decreases f
  {
    hide Compose, Proper, Uniform, SlotSound, LinkSound, ScaleSound, Acyclic;
    assert Parents(moved)[i] == ParentIndex(moved, i) && Parents(slots)[i] == ParentIndex(slots, i);
    if i != at && f > 0 && ParentIndex(slots, i) >= 0 {
      DerivedKept(seed, slots, moved, at, up, ParentIndex(slots, i), f - 1);
      assert Coherent(slots, i);
    }
  }

  lemma WorldKept(seed: u32, slots: seq<Slot>, moved: seq<Slot>, at: nat, up: int, next: u64)
    requires Sound(seed, slots) && at < |slots| == |moved| && -1 <= up < |slots|
    requires forall k :: 0 <= k < |slots| && k != at ==> moved[k] == slots[k]
    requires slots[at].entity.Some? && moved[at].entity.Some? && EntityAt(moved, at).transform == EntityAt(slots, at).transform
    requires Parents(moved) == Parents(slots)[at := up]
    ensures StandsStill(slots, Refresh(moved, at, next))
  {
    hide Compose, Derived, Sound, Parents, Within;
    var after := Refresh(moved, at, next);
    forall i | 0 <= i < |slots| && slots[i].entity.Some?
      ensures after[i].entity.Some? && EntityAt(after, i).transform == EntityAt(slots, i).transform
    {
      assert after[i] == Refreshed(moved, at, next, i);
      DerivedKept(seed, slots, moved, at, up, i, |slots|);
    }
  }

  /** A create fills the first free slot, or a new one, with an unplaced cube, and changes nothing else. */
  lemma CreateEffect(cx: Context, st: Staging, op: Operation, operation: nat)
    requires Guarded(st) && op.Create? && DoCreate(cx, st, op, operation).Ok?
    ensures
      var at := FirstFree(st.slots, 0);
      var r := DoCreate(cx, st, op, operation).value;
      && |r.slots| == (if at < |st.slots| then |st.slots| else |st.slots| + 1) && |r.slots| > at
      && r.slots[at].entity == Some(Entity(UNIT_CUBE, cx.next, IDENTITY, None, IDENTITY, []))
      && (at < |st.slots| ==> r.slots[at].uuid == st.slots[at].uuid && r.slots[at].generation == st.slots[at].generation)
      && (forall i :: 0 <= i < |st.slots| && i != at ==> r.slots[i] == st.slots[i])
      && r.created == st.created + [Binding(op.temporaryId, cx.worldId, r.slots[at].uuid, r.slots[at].generation)]
      && op.temporaryId in r.names && r.names[op.temporaryId] == EntityTarget(cx.worldId, r.slots[at].uuid, r.slots[at].generation)
  {
    hide HookCreate, Uuid;
  }

  /** A delete empties its slot, and changes nothing else; the old handle is stale from then on. */
  lemma DeleteEffect(cx: Context, st: Staging, op: Operation, operation: nat)
    requires Guarded(st) && op.Delete? && DoDelete(cx, st, op, operation).Ok?
    ensures
      var at := Resolve(cx, st, op.target, operation).value;
      var (slots, after) := (st.slots, DoDelete(cx, st, op, operation).value.slots);
      && |after| == |slots| && after[at].entity.None? && after[at].uuid == slots[at].uuid
      && (after[at].retired || after[at].generation == slots[at].generation + 1)
      && (after[at].retired <==> slots[at].generation == U64_MAX)
      && forall i :: 0 <= i < |slots| && i != at ==> after[i] == slots[i]
  {
    hide HookErase;
    ResolvedLive(cx, st, op.target, operation);
  }

  /** Setting tags stores exactly those tags, sorted, stamps the slot, and changes nothing else. */
  lemma TagsEffect(cx: Context, st: Staging, op: Operation, operation: nat)
    requires Guarded(st) && op.SetTags? && DoTags(cx, st, op, operation).Ok?
    ensures
      var at := Resolve(cx, st, op.target, operation).value;
      var (slots, after) := (st.slots, DoTags(cx, st, op, operation).value.slots);
      && |after| == |slots| && after[at].entity.Some?
      && multiset(EntityAt(after, at).tags) == multiset(op.tags) && Sorted(EntityAt(after, at).tags)
      && EntityAt(after, at) == EntityAt(slots, at).(tags := EntityAt(after, at).tags, revision := cx.next)
      && forall i :: 0 <= i < |slots| && i != at ==> after[i] == slots[i]
  {
    hide Sort, Sorted;
    ResolvedLive(cx, st, op.target, operation);
    SortSorted(op.tags);
  }
}
