/** Authored content without its revision stamps, and the edits that the history can take back. */
module Edits {
  import opened Prelude
  import opened Texts
  import opened Geometry
  import opened Forest
  import opened Worlds
  import opened Commands
  import opened PolicyRules
  import opened Batch
  import opened Hierarchy
  import opened Operations
  import opened Lifetimes

  function Unstamped(slot: Slot): Slot {
    if slot.entity.Some? then slot.(entity := Some(slot.entity.value.(revision := 0))) else slot
  }

  function Bare(slots: seq<Slot>): (r: seq<Slot>)
    ensures |r| == |slots|
    ensures forall i :: 0 <= i < |r| ==> r[i] == Unstamped(slots[i])
  {
    seq(|slots|, i requires 0 <= i < |slots| => Unstamped(slots[i]))
  }

  /** Everything a world says except its revision stamps. */
  function Content(s: Snapshot): Snapshot {
    s.(revision := 0, slots := Bare(s.slots))
  }

  /** The slot stands alone: no parent and no children. */
  predicate Isolated(slots: seq<Slot>, at: nat)
    requires at < |slots|
  {
    slots[at].entity.Some? && slots[at].entity.value.parent.None? && !HasChildren(slots, at)
  }

  /** The live slot of a handle, or -1. */
  function Located(worldId: Text, slots: seq<Slot>, target: Target): (r: int)
    ensures r == -1 || (0 <= r < |slots| && Live(slots[r]))
  {
    if target.Temporary? || target.entity.worldId != worldId then -1
    else FindIdentity(slots, ParentIdentity(target.entity.uuid, target.entity.generation), 0)
  }

  /** What one edit does to the content; None when it is not an edit the history takes or it must fail. */
  function Edit(worldId: Text, slots: seq<Slot>, op: Operation): (r: Option<seq<Slot>>)
    ensures r.Some? ==> |r.value| == |slots|
  {
    match op
    case SetTransform(target, value) =>
      var at := Located(worldId, slots, target);
      if at < 0 || !Isolated(slots, at) || !Proper(value) then None
      else Some(WithEntity(slots, at, EntityAt(slots, at).(transform := value)))
    case SetTags(target, tags) =>
      var at := Located(worldId, slots, target);
      if at < 0 then None else Some(WithEntity(slots, at, EntityAt(slots, at).(tags := Sort(tags))))
    case _ => None
  }

  /** The content after the first `n` edits. */
  function Edited(worldId: Text, slots: seq<Slot>, ops: seq<Operation>, n: nat): (r: Option<seq<Slot>>)
    requires n <= |ops|
    ensures r.Some? ==> |r.value| == |slots|
  {
    if n == 0 then Some(slots)
    else
      var before :- Edited(worldId, slots, ops, n - 1);
      Edit(worldId, before, ops[n - 1])
  }

  /** Same identities, liveness and parents. */
  predicate SameShape(a: seq<Slot>, b: seq<Slot>) {
    |a| == |b| && forall i :: 0 <= i < |a| ==> SameSlotShape(a[i], b[i])
  }

  predicate SameSlotShape(a: Slot, b: Slot) {
    && a.uuid == b.uuid && a.generation == b.generation && a.retired == b.retired && a.entity.Some? == b.entity.Some?
    && (a.entity.Some? ==>
          && a.entity.value.parent == b.entity.value.parent && a.entity.value.prefab == b.entity.value.prefab
          && a.entity.value.local == b.entity.value.local)
  }

  lemma ShapeAgrees(a: seq<Slot>, b: seq<Slot>, worldId: Text, target: Target)
    requires SameShape(a, b)
    ensures Located(worldId, a, target) == Located(worldId, b, target)
    ensures forall i :: 0 <= i < |a| ==> Isolated(a, i) == Isolated(b, i)
  {
    assert forall i :: 0 <= i < |a| ==> SameSlotShape(a[i], b[i]);
    if target.Handle? {
      FindSame(a, b, ParentIdentity(target.entity.uuid, target.entity.generation), 0);
    }
    forall i, c | 0 <= i < |a| && 0 <= c < |a|
      ensures ChildOf(a[c], a[i]) == ChildOf(b[c], b[i])
    {
      assert SameSlotShape(a[i], b[i]) && SameSlotShape(a[c], b[c]);
    }
  }

  lemma EditShape(worldId: Text, slots: seq<Slot>, op: Operation)
    requires Edit(worldId, slots, op).Some?
    ensures SameShape(slots, Edit(worldId, slots, op).value)
  {
    hide Proper;
  }

  // The Coordinator's step on such an edit

  /** Both ways of looking a handle up agree in a sound world. */
  lemma LocatedResolves(cx: Context, st: Staging, target: Target, operation: nat)
    requires StagedSound(cx, st.slots) && target.Handle?
    ensures
      var at := Located(cx.worldId, st.slots, target);
      && (at >= 0 ==> Resolve(cx, st, target, operation) == Ok(at))
      && (at < 0 ==> Resolve(cx, st, target, operation).Err?)
  {
    var at, found := Located(cx.worldId, st.slots, target), FindUuid(st.slots, target.entity.uuid, 0);
    if at >= 0 {
      assert SlotSound(cx.seed, st.slots[at], at);
      assert found <= at;
      assert SlotSound(cx.seed, st.slots[found], found);
      UuidInjective(cx.seed, at, found);
    }
  }

  /** In a slot that stands alone, refreshing touches only that slot. */
  lemma RefreshAlone(slots: seq<Slot>, at: nat, revision: u64)
    requires at < |slots| && Isolated(slots, at) && Live(slots[at])
    ensures Refresh(slots, at, revision) == WithEntity(slots, at, EntityAt(slots, at).(revision := revision))
  {
    hide Compose;
    var par := Parents(slots);
    forall i | 0 <= i < |slots|
      ensures Refresh(slots, at, revision)[i] == WithEntity(slots, at, EntityAt(slots, at).(revision := revision))[i]
    {
      if i != at && Within(par, at, i, |slots|) {
        ReachedByChild(par, at, i, |slots|);
        assert false;
      }
    }
  }

  lemma {:induction false} ReachedByChild(par: seq<int>, root: nat, i: int, fuel: nat)
    requires Indexed(par) && i < |par| && root < |par| && i != root && Within(par, root, i, fuel)
    ensures exists c :: 0 <= c < |par| && par[c] == root
    decreases fuel
  {
    if par[i] != root {
      ReachedByChild(par, root, par[i], fuel - 1);
    }
  }

  predicate Editing(worldId: Text, slots: seq<Slot>, op: Operation) {
    match op
    case SetTransform(target, _) =>
      var at := Located(worldId, slots, target);
      target.Handle? && (at >= 0 ==> Isolated(slots, at))
    case SetTags(target, _) => target.Handle?
    case _ => false
  }

  lemma TransformEdits(cx: Context, st: Staging, op: Operation, operation: nat)
    requires StagedSound(cx, st.slots) && Guarded(st) && op.SetTransform? && Editing(cx.worldId, st.slots, op)
    ensures
      var (r, edit) := (DoTransform(cx, st, op, operation), Edit(cx.worldId, Bare(st.slots), op));
      && (r.Ok? ==> edit == Some(Bare(r.value.slots)))
      && (edit.Some? && st.guard.None? ==> r.Ok? && r.value.guard.None?)
  {
    hide Proper, Uniform, Relative, Compose, SoundBut, Refresh;
    var slots, at := st.slots, Located(cx.worldId, st.slots, op.target);
    LocatedResolves(cx, st, op.target, operation);
    BareShape(slots);
    ShapeAgrees(slots, Bare(slots), cx.worldId, op.target);
    if at >= 0 && DoTransform(cx, st, op, operation).Ok? {
      var moved := WithEntity(slots, at, Placed(slots, at, op.value));
      assert Placed(slots, at, op.value) == EntityAt(slots, at).(transform := op.value);
      EditShape(cx.worldId, slots, op);
      ShapeAgrees(slots, moved, cx.worldId, op.target);
      RefreshAlone(moved, at, cx.next);
      assert Bare(Refresh(moved, at, cx.next)) == Edit(cx.worldId, Bare(slots), op).value;
    }
  }

  lemma TagsEdits(cx: Context, st: Staging, op: Operation, operation: nat)
    requires StagedSound(cx, st.slots) && Guarded(st) && op.SetTags? && Editing(cx.worldId, st.slots, op)
    ensures
      var (r, edit) := (DoTags(cx, st, op, operation), Edit(cx.worldId, Bare(st.slots), op));
      && (r.Ok? ==> edit == Some(Bare(r.value.slots)))
      && (edit.Some? && st.guard.None? ==> r.Ok? && r.value.guard.None?)
  {
    hide SoundBut;
    var slots := st.slots;
    LocatedResolves(cx, st, op.target, operation);
    BareShape(slots);
    ShapeAgrees(slots, Bare(slots), cx.worldId, op.target);
    if DoTags(cx, st, op, operation).Ok? {
      assert Bare(DoTags(cx, st, op, operation).value.slots) == Edit(cx.worldId, Bare(slots), op).value;
    }
  }

  lemma BareShape(slots: seq<Slot>)
    ensures SameShape(slots, Bare(slots))
  {
  }

  /** A step of the Coordinator on an edit does to the content what the edit says; without a guard
      it succeeds exactly when the edit does. */
  lemma StepEdits(cx: Context, st: Staging, op: Operation, operation: nat)
    requires StagedSound(cx, st.slots) && Guarded(st) && Editing(cx.worldId, st.slots, op)
    ensures
      var (r, edit) := (Step(cx, st, op, operation), Edit(cx.worldId, Bare(st.slots), op));
      && (r.Ok? ==> edit == Some(Bare(r.value.slots)))
      && (edit.Some? && st.guard.None? ==> r.Ok? && r.value.guard.None?)
  {
    hide DoTransform, DoTags, Edit, Editing, StagedSound;
    if op.SetTransform? {
      TransformEdits(cx, st, op, operation);
    } else {
      EditingKind(cx.worldId, st.slots, op);
      TagsEdits(cx, st, op, operation);
    }
  }

  lemma EditingKind(worldId: Text, slots: seq<Slot>, op: Operation)
    requires Editing(worldId, slots, op)
    ensures op.SetTransform? || op.SetTags?
  {
  }

  lemma EditingShape(worldId: Text, a: seq<Slot>, b: seq<Slot>, op: Operation)
    requires SameShape(a, b) && Editing(worldId, a, op)
    ensures Editing(worldId, b, op)
  {
    hide SameShape;
    if op.SetTransform? {
      ShapeAgrees(a, b, worldId, op.target);
    }
  }

  lemma ShapeTransitive(a: seq<Slot>, b: seq<Slot>, c: seq<Slot>)
    requires SameShape(a, b) && SameShape(b, c)
    ensures SameShape(a, c)
  {
    forall i | 0 <= i < |a|
      ensures SameSlotShape(a[i], c[i])
    {
      assert SameSlotShape(a[i], b[i]) && SameSlotShape(b[i], c[i]);
    }
  }

  lemma ShapeReverse(a: seq<Slot>, b: seq<Slot>)
    requires SameShape(a, b)
    ensures SameShape(b, a)
  {
    forall i | 0 <= i < |a|
      ensures SameSlotShape(b[i], a[i])
    {
      assert SameSlotShape(a[i], b[i]);
    }
  }

  lemma {:induction false} EditedShape(worldId: Text, slots: seq<Slot>, ops: seq<Operation>, n: nat)
    requires n <= |ops| && Edited(worldId, slots, ops, n).Some?
    ensures SameShape(slots, Edited(worldId, slots, ops, n).value)
  {
    hide Edit;
    if n > 0 {
      EditedShape(worldId, slots, ops, n - 1);
      var mid := Edited(worldId, slots, ops, n - 1).value;
      EditShape(worldId, mid, ops[n - 1]);
      ShapeTransitive(slots, mid, Edited(worldId, slots, ops, n).value);
    }
  }

  /** The same for the whole batch. */
  lemma {:induction false} StepsEdit(cx: Context, st: Staging, ops: seq<Operation>, n: nat)
    requires n <= |ops| && StagedSound(cx, st.slots) && Guarded(st)
    requires forall k :: 0 <= k < |ops| ==> Editing(cx.worldId, st.slots, ops[k]) && OperationFits(ops[k])
    ensures
      var (r, edit) := (Steps(cx, st, ops, n), Edited(cx.worldId, Bare(st.slots), ops, n));
      && (r.Ok? ==> edit == Some(Bare(r.value.slots)) && StagedSound(cx, r.value.slots))
      && (edit.Some? && st.guard.None? ==> r.Ok? && r.value.guard.None?)
      && (r.Ok? ==> r.value.created == st.created)
  {
    hide Step, Edit, Editing, StagedSound, SameShape, OperationFits;
    if n > 0 {
      StepsEdit(cx, st, ops, n - 1);
      var mid := Steps(cx, st, ops, n - 1);
      if mid.Ok? {
        EditedShape(cx.worldId, Bare(st.slots), ops, n - 1);
        BareShape(st.slots);
        BareShape(mid.value.slots);
        ShapeReverse(mid.value.slots, Bare(mid.value.slots));
        ShapeTransitive(st.slots, Bare(st.slots), Bare(mid.value.slots));
        ShapeTransitive(st.slots, Bare(mid.value.slots), mid.value.slots);
        EditingShape(cx.worldId, st.slots, mid.value.slots, ops[n - 1]);
        StepEdits(cx, mid.value, ops[n - 1], n - 1);
        if Step(cx, mid.value, ops[n - 1], n - 1).Ok? {
          StepSound(cx, mid.value, ops[n - 1], n - 1);
          NoCreation(cx, mid.value, ops[n - 1], n - 1);
        }
      }
    }
  }

  lemma NoCreation(cx: Context, st: Staging, op: Operation, operation: nat)
    requires Guarded(st) && Editing(cx.worldId, st.slots, op) && Step(cx, st, op, operation).Ok?
    ensures Step(cx, st, op, operation).value.created == st.created
  {
    hide Proper, Uniform, Relative, Compose, Refresh, Resolve, HookTransform;
  }

  // Taking edits back

  /** The edit that puts back what `op` may overwrite. */
  function Inverse(worldId: Text, slots: seq<Slot>, op: Operation): Operation
    requires op.SetTransform? || op.SetTags?
    requires Located(worldId, slots, op.target) >= 0
  {
    var e := EntityAt(slots, Located(worldId, slots, op.target));
    match op
    case SetTransform(target, _) => SetTransform(target, e.transform)
    case SetTags(target, _) => SetTags(target, e.tags)
  }

  /** `op` puts back what `slots` holds. */
  predicate Restores(worldId: Text, slots: seq<Slot>, op: Operation) {
    && (op.SetTransform? || op.SetTags?)
    && var at := Located(worldId, slots, op.target);
       at >= 0 && op == Inverse(worldId, slots, op) && (op.SetTransform? ==> Isolated(slots, at))
  }

  /** `op` writes this field of slot `i`. */
  predicate Writes(worldId: Text, slots: seq<Slot>, op: Operation, i: nat, transform: bool) {
    (if transform then op.SetTransform? else op.SetTags?) && Located(worldId, slots, op.target) == i
  }

  /** Some edit of `ops` from `m` up to `n` writes the field. */
  predicate Written(worldId: Text, slots: seq<Slot>, ops: seq<Operation>, m: nat, n: nat, i: nat, transform: bool)
    requires n <= |ops|
  {
    exists j: nat :: m <= j < n && Writes(worldId, slots, ops[j], i, transform)
  }

  /** `x` differs from `slots` only in fields that those edits write. */
  predicate Differs(worldId: Text, slots: seq<Slot>, x: seq<Slot>, ops: seq<Operation>, m: nat, n: nat)
    requires n <= |ops|
  {
    && SameShape(slots, x)
    && forall i :: 0 <= i < |slots| && slots[i].entity.Some? ==>
         && x[i].entity.value.revision == slots[i].entity.value.revision
         && (x[i].entity.value.transform != slots[i].entity.value.transform ==> Written(worldId, slots, ops, m, n, i, true))
         && (x[i].entity.value.tags != slots[i].entity.value.tags ==> Written(worldId, slots, ops, m, n, i, false))
  }

  lemma WrittenMore(worldId: Text, slots: seq<Slot>, ops: seq<Operation>, n: nat, i: nat, transform: bool)
    requires 0 < n <= |ops|
    ensures Written(worldId, slots, ops, 0, n - 1, i, transform) ==> Written(worldId, slots, ops, 0, n, i, transform)
    ensures Writes(worldId, slots, ops[n - 1], i, transform) ==> Written(worldId, slots, ops, 0, n, i, transform)
  {
  }

  /** One edit on content of the same shape writes its field and nothing else. */
  lemma EditWrites(worldId: Text, slots: seq<Slot>, x: seq<Slot>, op: Operation, i: nat)
    requires SameShape(slots, x) && Edit(worldId, x, op).Some? && i < |x| && x[i].entity.Some?
    ensures
      var y := Edit(worldId, x, op).value;
      && SameShape(slots, y)
      && y[i].entity.value.revision == x[i].entity.value.revision
      && (if Writes(worldId, slots, op, i, true) then y[i].entity.value.transform == op.value
          else y[i].entity.value.transform == x[i].entity.value.transform)
      && (if Writes(worldId, slots, op, i, false) then y[i].entity.value.tags == Sort(op.tags)
          else y[i].entity.value.tags == x[i].entity.value.tags)
  {
    hide Proper, Sort, Located, Isolated;
    EditTarget(worldId, x, op);
    ShapeAgrees(slots, x, worldId, op.target);
    EditShape(worldId, x, op);
    ShapeTransitive(slots, x, Edit(worldId, x, op).value);
  }

  lemma EditTarget(worldId: Text, x: seq<Slot>, op: Operation)
    requires Edit(worldId, x, op).Some?
    ensures op.SetTransform? || op.SetTags?
    ensures Located(worldId, x, op.target) >= 0
  {
    hide Located, Proper;
  }

  /** Edits change only what they write. */
  lemma {:induction false} EditedDiffers(worldId: Text, slots: seq<Slot>, ops: seq<Operation>, n: nat)
    requires n <= |ops| && Edited(worldId, slots, ops, n).Some?
    ensures Differs(worldId, slots, Edited(worldId, slots, ops, n).value, ops, 0, n)
  {
    hide Written, Edit, Writes, Differs, SameShape;
    if n > 0 {
      EditedDiffers(worldId, slots, ops, n - 1);
      DiffersOn(worldId, slots, Edited(worldId, slots, ops, n - 1).value, ops, n);
    } else {
      assert Edited(worldId, slots, ops, 0).value == slots;
      SameDiffers(worldId, slots, ops);
    }
  }

  lemma SameDiffers(worldId: Text, slots: seq<Slot>, ops: seq<Operation>)
    ensures Differs(worldId, slots, slots, ops, 0, 0)
  {
  }

  lemma DiffersOn(worldId: Text, slots: seq<Slot>, x: seq<Slot>, ops: seq<Operation>, n: nat)
    requires 0 < n <= |ops| && Differs(worldId, slots, x, ops, 0, n - 1) && Edit(worldId, x, ops[n - 1]).Some?
    ensures Differs(worldId, slots, Edit(worldId, x, ops[n - 1]).value, ops, 0, n)
  {
    hide Written, Edit, Writes, SameShape;
    var y := Edit(worldId, x, ops[n - 1]).value;
    DiffersShape(worldId, slots, x, ops, 0, n - 1);
    EditShape(worldId, x, ops[n - 1]);
    ShapeTransitive(slots, x, y);
    SlotShapes(slots, y);
    forall i | 0 <= i < |slots| && slots[i].entity.Some?
      ensures y[i].entity.value.revision == slots[i].entity.value.revision
      ensures y[i].entity.value.transform != slots[i].entity.value.transform ==> Written(worldId, slots, ops, 0, n, i, true)
      ensures y[i].entity.value.tags != slots[i].entity.value.tags ==> Written(worldId, slots, ops, 0, n, i, false)
    {
      ShapeAt(slots, x, i);
      EditWrites(worldId, slots, x, ops[n - 1], i);
      WrittenMore(worldId, slots, ops, n, i, true);
      WrittenMore(worldId, slots, ops, n, i, false);
    }
  }

  lemma DiffersShape(worldId: Text, slots: seq<Slot>, x: seq<Slot>, ops: seq<Operation>, m: nat, n: nat)
    requires n <= |ops| && Differs(worldId, slots, x, ops, m, n)
    ensures SameShape(slots, x)
  {
  }

  lemma SlotShapes(a: seq<Slot>, b: seq<Slot>)
    requires SameShape(a, b)
    ensures |a| == |b| && forall i :: 0 <= i < |a| ==> SameSlotShape(a[i], b[i])
  {
  }

  lemma ShapeAt(a: seq<Slot>, b: seq<Slot>, i: nat)
    requires SameShape(a, b) && i < |a|
    ensures |a| == |b| && SameSlotShape(a[i], b[i])
  {
  }

  /** Transforms are proper and tags sorted. */
  predicate Settled(slots: seq<Slot>) {
    forall i :: 0 <= i < |slots| && slots[i].entity.Some? ==>
      Proper(slots[i].entity.value.transform) && Sorted(slots[i].entity.value.tags)
  }

  lemma WrittenNext(worldId: Text, slots: seq<Slot>, ops: seq<Operation>, n: nat, i: nat, transform: bool)
    requires 0 < n <= |ops| && Written(worldId, slots, ops, n - 1, |ops|, i, transform)
    ensures Writes(worldId, slots, ops[n - 1], i, transform) || Written(worldId, slots, ops, n, |ops|, i, transform)
  {
  }

  /** Edits that put back what `slots` holds bring it back, from any content that differs only in what they write. */
  lemma {:induction false} Restored(worldId: Text, slots: seq<Slot>, x: seq<Slot>, ops: seq<Operation>, n: nat)
    requires n <= |ops| && Settled(slots) && Differs(worldId, slots, x, ops, 0, |ops|)
    requires forall k :: 0 <= k < |ops| ==> Restores(worldId, slots, ops[k])
    ensures Edited(worldId, x, ops, n).Some? && Differs(worldId, slots, Edited(worldId, x, ops, n).value, ops, n, |ops|)
  {
    hide Differs, Edit, Settled, Restores;
    if n > 0 {
      Restored(worldId, slots, x, ops, n - 1);
      RestoredOnce(worldId, slots, Edited(worldId, x, ops, n - 1).value, ops, n);
    } else {
      assert Edited(worldId, x, ops, 0).value == x;
    }
  }

  lemma RestoringEdits(worldId: Text, slots: seq<Slot>, x: seq<Slot>, op: Operation)
    requires Settled(slots) && SameShape(slots, x) && Restores(worldId, slots, op)
    ensures Edit(worldId, x, op).Some?
  {
    hide Proper, SameShape, Located, Isolated;
    ShapeAgrees(slots, x, worldId, op.target);
  }

  lemma RestoredOnce(worldId: Text, slots: seq<Slot>, x: seq<Slot>, ops: seq<Operation>, n: nat)
    requires 0 < n <= |ops| && Settled(slots) && Differs(worldId, slots, x, ops, n - 1, |ops|) && Restores(worldId, slots, ops[n - 1])
    ensures Edit(worldId, x, ops[n - 1]).Some?
    ensures Differs(worldId, slots, Edit(worldId, x, ops[n - 1]).value, ops, n, |ops|)
  {
    hide Written, Edit, Writes, SameShape, Settled, Restores, Sort, Sorted;
    var op := ops[n - 1];
    DiffersShape(worldId, slots, x, ops, n - 1, |ops|);
    RestoringEdits(worldId, slots, x, op);
    var y := Edit(worldId, x, op).value;
    EditShape(worldId, x, op);
    ShapeTransitive(slots, x, y);
    SlotShapes(slots, y);
    forall i | 0 <= i < |slots| && slots[i].entity.Some?
      ensures y[i].entity.value.revision == slots[i].entity.value.revision
      ensures y[i].entity.value.transform != slots[i].entity.value.transform ==> Written(worldId, slots, ops, n, |ops|, i, true)
      ensures y[i].entity.value.tags != slots[i].entity.value.tags ==> Written(worldId, slots, ops, n, |ops|, i, false)
    {
      ShapeAt(slots, x, i);
      EditWrites(worldId, slots, x, op, i);
      RestoringValue(worldId, slots, op, i);
      if y[i].entity.value.transform != slots[i].entity.value.transform {
        WrittenNext(worldId, slots, ops, n, i, true);
      }
      if y[i].entity.value.tags != slots[i].entity.value.tags {
        WrittenNext(worldId, slots, ops, n, i, false);
      }
    }
  }

  lemma RestoringValue(worldId: Text, slots: seq<Slot>, op: Operation, i: nat)
    requires Settled(slots) && Restores(worldId, slots, op) && i < |slots| && slots[i].entity.Some?
    ensures Writes(worldId, slots, op, i, true) ==> op.value == slots[i].entity.value.transform
    ensures Writes(worldId, slots, op, i, false) ==> Sort(op.tags) == slots[i].entity.value.tags
  {
    hide Proper, Located, Isolated;
    if op.SetTags? && Located(worldId, slots, op.target) == i {
      SortedStays(op.tags);
    }
  }

  lemma NothingDiffers(worldId: Text, slots: seq<Slot>, x: seq<Slot>, ops: seq<Operation>)
    requires Differs(worldId, slots, x, ops, |ops|, |ops|)
    ensures x == slots
  {
    forall i | 0 <= i < |slots|
      ensures x[i] == slots[i]
    {
      assert SameSlotShape(slots[i], x[i]);
    }
  }

  /** The edit may be taken back: its target is live, and stands alone when it is moved. */
  predicate Revertible(worldId: Text, slots: seq<Slot>, op: Operation) {
    && (op.SetTransform? || op.SetTags?)
    && Located(worldId, slots, op.target) >= 0
    && (op.SetTransform? ==> Isolated(slots, Located(worldId, slots, op.target)))
  }

  /** The inverse of a batch, last edit first. */
  function Inverses(worldId: Text, slots: seq<Slot>, ops: seq<Operation>): (r: seq<Operation>)
    requires forall k :: 0 <= k < |ops| ==> Revertible(worldId, slots, ops[k])
    ensures |r| == |ops|
  {
    seq(|ops|, i requires 0 <= i < |ops| =>
      assert Revertible(worldId, slots, ops[|ops| - 1 - i]);
      Inverse(worldId, slots, ops[|ops| - 1 - i]))
  }

  /** Applying the inverse after the batch gives back the content, however often the batch set one target. */
  lemma {:induction false} InverseUndoes(worldId: Text, slots: seq<Slot>, ops: seq<Operation>)
    requires Settled(slots) && Edited(worldId, slots, ops, |ops|).Some?
    requires forall k :: 0 <= k < |ops| ==> Revertible(worldId, slots, ops[k])
    ensures
      var after := Edited(worldId, slots, ops, |ops|).value;
      var back := Inverses(worldId, slots, ops);
      Edited(worldId, after, back, |back|) == Some(slots)
  {
    hide Differs, Settled, SameShape, Edited, Restores, Revertible, Inverse;
    var after, back, n := Edited(worldId, slots, ops, |ops|).value, Inverses(worldId, slots, ops), |ops|;
    EditedDiffers(worldId, slots, ops, n);
    forall k | 0 <= k < n
      ensures Restores(worldId, slots, back[k])
    {
      InverseRestores(worldId, slots, ops[n - 1 - k], 0);
    }
    forall i: nat, transform: bool | Written(worldId, slots, ops, 0, n, i, transform)
      ensures Written(worldId, slots, back, 0, n, i, transform)
    {
      var j: nat :| 0 <= j < n && Writes(worldId, slots, ops[j], i, transform);
      InverseRestores(worldId, slots, ops[j], i);
      assert back[n - 1 - j] == Inverse(worldId, slots, ops[j]);
      assert Writes(worldId, slots, back[n - 1 - j], i, transform);
    }
    SameWritten(worldId, slots, after, ops, back);
    Restored(worldId, slots, after, back, n);
    NothingDiffers(worldId, slots, Edited(worldId, after, back, n).value, back);
  }

  lemma InverseRestores(worldId: Text, slots: seq<Slot>, op: Operation, i: nat)
    requires Revertible(worldId, slots, op)
    ensures Restores(worldId, slots, Inverse(worldId, slots, op))
    ensures forall transform: bool :: Writes(worldId, slots, op, i, transform) ==> Writes(worldId, slots, Inverse(worldId, slots, op), i, transform)
  {
    hide Located, Isolated;
  }

  lemma SameWritten(worldId: Text, slots: seq<Slot>, x: seq<Slot>, ops: seq<Operation>, back: seq<Operation>)
    requires Differs(worldId, slots, x, ops, 0, |ops|)
    requires forall i: nat, transform: bool | Written(worldId, slots, ops, 0, |ops|, i, transform) :: Written(worldId, slots, back, 0, |back|, i, transform)
    ensures Differs(worldId, slots, x, back, 0, |back|)
  {
    hide Written, SameShape;
  }
}
