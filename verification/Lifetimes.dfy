/** How slots evolve over batches: generations, change stamps and identities handed out by creates. */
module Lifetimes {
  import opened Prelude
  import opened Texts
  import opened Geometry
  import opened Forest
  import opened Worlds
  import opened Commands
  import opened PolicyRules
  import opened Batch
  import opened Hierarchy
  import opened Operations

  /** One slot before and after some operations stamped `since` or later. */
  predicate SlotEvolves(a: Slot, b: Slot, since: nat) {
    && b.uuid == a.uuid && a.generation <= b.generation
    && (a.retired ==> b == a)
    && (Live(a) && b.generation == a.generation && !b.retired ==>
          b.entity.Some? && (b.entity == a.entity || b.entity.value.revision >= since))
  }

  predicate Evolves(slots: seq<Slot>, slots': seq<Slot>, since: nat) {
    |slots| <= |slots'| && forall i :: 0 <= i < |slots| ==> SlotEvolves(slots[i], slots'[i], since)
  }

  predicate Stamped(slots: seq<Slot>, revision: nat) {
    forall i :: 0 <= i < |slots| && slots[i].entity.Some? ==> slots[i].entity.value.revision <= revision
  }

  /** A create has handed out this identity. */
  predicate Bound(slots: seq<Slot>, uuid: Text, generation: nat) {
    exists i :: 0 <= i < |slots| && BoundAt(slots[i], uuid, generation)
  }

  predicate BoundAt(slot: Slot, uuid: Text, generation: nat) {
    slot.uuid == uuid && (generation < slot.generation || (generation == slot.generation && !Free(slot)))
  }

  /** This identity was handed out and its entity is gone. */
  predicate Stale(slots: seq<Slot>, uuid: Text, generation: nat) {
    exists i :: 0 <= i < |slots| && StaleAt(slots[i], uuid, generation)
  }

  predicate StaleAt(slot: Slot, uuid: Text, generation: nat) {
    slot.uuid == uuid && (generation < slot.generation || (generation == slot.generation && slot.retired))
  }

  /** No identity is handed out twice among `created`, nor one already bound in `slots`. */
  ghost predicate NewIdentities(slots: seq<Slot>, slots': seq<Slot>, created: seq<Binding>) {
    && (forall k :: 0 <= k < |created| ==>
          !Bound(slots, created[k].uuid, created[k].generation) && Bound(slots', created[k].uuid, created[k].generation))
    && forall j, k :: 0 <= j < k < |created| ==>
         created[j].uuid != created[k].uuid || created[j].generation != created[k].generation
  }

  lemma EvolvesTransitive(a: seq<Slot>, b: seq<Slot>, c: seq<Slot>, since: nat)
    requires Evolves(a, b, since) && Evolves(b, c, since)
    ensures Evolves(a, c, since)
  {
    forall i | 0 <= i < |a|
      ensures SlotEvolves(a[i], c[i], since)
    {
      assert SlotEvolves(a[i], b[i], since) && SlotEvolves(b[i], c[i], since);
    }
  }

  lemma BoundStays(slots: seq<Slot>, slots': seq<Slot>, since: nat, uuid: Text, generation: nat)
    requires Evolves(slots, slots', since)
    ensures Bound(slots, uuid, generation) ==> Bound(slots', uuid, generation)
    ensures Stale(slots, uuid, generation) ==> Stale(slots', uuid, generation)
  {
    if i :| 0 <= i < |slots| && BoundAt(slots[i], uuid, generation) {
      assert SlotEvolves(slots[i], slots'[i], since);
      assert BoundAt(slots'[i], uuid, generation);
    }
    if i :| 0 <= i < |slots| && StaleAt(slots[i], uuid, generation) {
      assert SlotEvolves(slots[i], slots'[i], since);
      assert StaleAt(slots'[i], uuid, generation);
    }
  }

  /** The identity of a free slot has not been handed out. */
  lemma FreeUnbound(seed: u32, slots: seq<Slot>, at: nat)
    requires Sound(seed, slots) && at <= |slots| && |slots| < SLOT_LIMIT + (if at < |slots| then 1 else 0)
    requires at < |slots| ==> Free(slots[at])
    ensures !Bound(slots, Uuid(seed, at), if at < |slots| then slots[at].generation else 1)
  {
    forall i | 0 <= i < |slots| && slots[i].uuid == Uuid(seed, at)
      ensures i == at
    {
      assert SlotSound(seed, slots[i], i);
      UuidInjective(seed, i, at);
    }
  }

  lemma CreateEvolves(cx: Context, st: Staging, op: Operation, operation: nat)
    requires StagedSound(cx, st.slots) && Guarded(st) && Stamped(st.slots, cx.next) && op.Create?
    requires DoCreate(cx, st, op, operation).Ok?
    ensures
      var st' := DoCreate(cx, st, op, operation).value;
      && Evolves(st.slots, st'.slots, cx.next) && Stamped(st'.slots, cx.next)
      && exists b :: st'.created == st.created + [b]
                     && !Bound(st.slots, b.uuid, b.generation) && Bound(st'.slots, b.uuid, b.generation)
  {
    hide LinkSound, ScaleSound, Coherent, Acyclic;
    var at, st' := FirstFree(st.slots, 0), DoCreate(cx, st, op, operation).value;
    FreeUnbound(cx.seed, st.slots, at);
    if at < |st.slots| {
      assert SlotSound(cx.seed, st.slots[at], at);
    }
    var b := st'.created[|st.created|];
    assert BoundAt(st'.slots[at], b.uuid, b.generation);
    assert st'.created == st.created + [b];
  }

  lemma ChangeEvolves(slots: seq<Slot>, at: nat, slot: Slot, next: u64)
    requires at < |slots| && Live(slots[at]) && SlotEvolves(slots[at], slot, next) && Stamped(slots, next)
    requires slot.entity.Some? ==> slot.entity.value.revision <= next
    ensures Evolves(slots, slots[at := slot], next) && Stamped(slots[at := slot], next)
  {
    EvolvesReflexive(slots, next);
  }

  /** One operation: how slots evolve, and which identity a create hands out. */
  lemma StepEvolves(cx: Context, st: Staging, op: Operation, operation: nat)
    requires StagedSound(cx, st.slots) && Guarded(st) && Stamped(st.slots, cx.next)
    requires Step(cx, st, op, operation).Ok?
    ensures
      var st' := Step(cx, st, op, operation).value;
      && Evolves(st.slots, st'.slots, cx.next) && Stamped(st'.slots, cx.next)
      && (st'.created == st.created
          || exists b :: st'.created == st.created + [b]
                         && !Bound(st.slots, b.uuid, b.generation) && Bound(st'.slots, b.uuid, b.generation))
  {
    assert forall i :: 0 <= i < |st.slots| ==> SlotSound(cx.seed, st.slots[i], i);
    hide Compose, Proper, Uniform, Relative, Refresh, Placed, Hung, Within, SoundBut, Evolves, Stamped, Bound, DoCreate, HookTransform, HookErase, Sort;
    match op
    case Create(_, _) =>
      CreateEvolves(cx, st, op, operation);
    case SetTransform(target, value) =>
      var at := Resolve(cx, st, target, operation).value;
      RefreshEvolves(st.slots, at, Placed(st.slots, at, value), cx.next);
    case SetTags(target, tags) =>
      var at := Resolve(cx, st, target, operation).value;
      var e := EntityAt(st.slots, at).(tags := Sort(tags), revision := cx.next);
      ChangeEvolves(st.slots, at, st.slots[at].(entity := Some(e)), cx.next);
    case Reparent(target, parent, mode) =>
      var at := Resolve(cx, st, target, operation).value;
      var up := if parent.Some? then ResolveParent(cx, st, parent.value, operation).value else -1;
      RefreshEvolves(st.slots, at, Hung(st.slots, at, up, mode), cx.next);
    case Delete(target) =>
      var at := Resolve(cx, st, target, operation).value;
      ChangeEvolves(st.slots, at, Vacated(st.slots[at]), cx.next);
  }

  /** Whatever a refresh changes, it stamps; descendants moved only through an ancestor included. */
  lemma RefreshEvolves(slots: seq<Slot>, at: nat, e: Entity, next: u64)
    requires at < |slots| && Live(slots[at]) && Stamped(slots, next)
    requires forall i :: 0 <= i < |slots| ==> slots[i].retired ==> slots[i].entity.None?
    ensures Evolves(slots, Refresh(WithEntity(slots, at, e), at, next), next)
    ensures Stamped(Refresh(WithEntity(slots, at, e), at, next), next)
  {
    var moved := WithEntity(slots, at, e);
    RefreshKeeps(moved, at, next);
    assert Within(Parents(moved), at, at, |moved|);
  }

  lemma NewIdentitiesGrow(a: seq<Slot>, b: seq<Slot>, c: seq<Slot>, since: nat, created: seq<Binding>, more: seq<Binding>)
    requires Evolves(a, b, since) && Evolves(b, c, since)
    requires NewIdentities(a, b, created) && NewIdentities(b, c, more)
    ensures NewIdentities(a, c, created + more)
  {
    var all := created + more;
    forall k | 0 <= k < |all|
      ensures !Bound(a, all[k].uuid, all[k].generation) && Bound(c, all[k].uuid, all[k].generation)
    {
      BoundStays(a, b, since, all[k].uuid, all[k].generation);
      BoundStays(b, c, since, all[k].uuid, all[k].generation);
    }
  }

  /** Any number of operations of one batch. */
  lemma {:induction false} StepsEvolve(cx: Context, st: Staging, ops: seq<Operation>, n: nat)
    requires StagedSound(cx, st.slots) && Guarded(st) && Stamped(st.slots, cx.next) && st.created == []
    requires forall i :: 0 <= i < |ops| ==> OperationFits(ops[i])
    requires n <= |ops| && Steps(cx, st, ops, n).Ok?
    ensures
      var st' := Steps(cx, st, ops, n).value;
      && StagedSound(cx, st'.slots) && Evolves(st.slots, st'.slots, cx.next) && Stamped(st'.slots, cx.next)
      && NewIdentities(st.slots, st'.slots, st'.created)
  {
    hide Step, Bound, SlotEvolves, OperationFits;
    if n == 0 {
      EvolvesReflexive(st.slots, cx.next);
    } else {
      StepsEvolve(cx, st, ops, n - 1);
      var before := Steps(cx, st, ops, n - 1).value;
      var after := Steps(cx, st, ops, n).value;
      StepSound(cx, before, ops[n - 1], n - 1);
      StepEvolves(cx, before, ops[n - 1], n - 1);
      EvolvesTransitive(st.slots, before.slots, after.slots, cx.next);
      if after.created == before.created {
        NewIdentitiesGrow(st.slots, before.slots, after.slots, cx.next, before.created, []);
        assert before.created + [] == after.created;
      } else {
        var b :| after.created == before.created + [b]
                 && !Bound(before.slots, b.uuid, b.generation) && Bound(after.slots, b.uuid, b.generation);
        NewIdentitiesGrow(st.slots, before.slots, after.slots, cx.next, before.created, [b]);
      }
    }
  }

  lemma EvolvesReflexive(slots: seq<Slot>, since: nat)
    ensures Evolves(slots, slots, since)
  {
  }

  /** The invariant of the authoritative world. */
  ghost predicate Committed(s: Snapshot) {
    && ValidWorld(s.worldId, s.maxSlots) && |s.slots| <= s.maxSlots
    && Sound(s.seed, s.slots)
    && Stamped(s.slots, s.revision)
    && s.version == FormatVersion(s.slots)
  }

  lemma FreshCommitted(worldId: Text, seed: u32, maxSlots: u32)
    requires ValidWorld(worldId, maxSlots)
    ensures Committed(Fresh(worldId, seed, maxSlots))
  {
  }

  lemma OperationsFit(pl: Platform, e: Envelope)
    requires ValidEnvelope(pl, e)
    ensures forall i :: 0 <= i < |e.operations| ==> OperationFits(e.operations[i])
  {
    forall i | 0 <= i < |e.operations|
      ensures OperationFits(e.operations[i])
    {
      assert ValidOperation(pl, e.operations[i]);
    }
  }

  /** A committed batch keeps the invariant, moves the revision by one and stamps what it changes. */
  lemma StageCommits(pl: Platform, s: Snapshot, e: Envelope, admission: Option<Admission>, bindings: Option<seq<Binding>>)
    requires Committed(s) && Admitted(admission)
    requires Stage(pl, s, e, admission, bindings).Ok?
    ensures
      var staged := Stage(pl, s, e, admission, bindings).value;
      && Committed(staged.after)
      && staged.after.revision == s.revision + 1 == e.expectedRevision + 1
      && staged.after == s.(version := staged.after.version, revision := s.revision + 1, slots := staged.after.slots)
      && Evolves(s.slots, staged.after.slots, s.revision + 1)
      && NewIdentities(s.slots, staged.after.slots, staged.created)
  {
    OperationsFit(pl, e);
    hide Sound, Evolves, NewIdentities, Start, Finish, ValidEnvelope;
    var guard := Start(admission, s, e).value;
    var cx := Context(s.worldId, s.seed, s.maxSlots, s.revision + 1, bindings);
    StepsEvolve(cx, Staging(s.slots, map[], [], guard), e.operations, |e.operations|);
  }

  // Runs

  /** One committed batch: the world it published and the identities it created. */
  datatype Commit = Commit(after: Snapshot, created: seq<Binding>)

  ghost predicate Publishes(pl: Platform, s: Snapshot, c: Commit) {
    exists e, admission, bindings :: Admitted(admission) && Publication(pl, s, c, e, admission, bindings)
  }

  predicate Publication(pl: Platform, s: Snapshot, c: Commit, e: Envelope, admission: Option<Admission>, bindings: Option<seq<Binding>>)
    requires Admitted(admission)
  {
    var r := Stage(pl, s, e, admission, bindings);
    r.Ok? && r.value.after == c.after && r.value.created == c.created
  }

  /** The world after the first `n` commits of a run. */
  function At(s: Snapshot, run: seq<Commit>, n: nat): Snapshot
    requires n <= |run|
  {
    if n == 0 then s else run[n - 1].after
  }

  ghost predicate Run(pl: Platform, s: Snapshot, run: seq<Commit>) {
    Committed(s) && forall k :: 0 <= k < |run| ==> Publishes(pl, At(s, run, k), run[k])
  }

  function AllCreated(run: seq<Commit>, n: nat): seq<Binding>
    requires n <= |run|
  {
    if n == 0 then [] else AllCreated(run, n - 1) + run[n - 1].created
  }

  lemma {:induction false} RunCommitted(pl: Platform, s: Snapshot, run: seq<Commit>, n: nat)
    requires Run(pl, s, run) && n <= |run|
    ensures Committed(At(s, run, n)) && At(s, run, n).revision == s.revision + n
  {
    hide Committed, Evolves, NewIdentities, Publishes;
    if n > 0 {
      RunCommitted(pl, s, run, n - 1);
      RunStep(pl, s, run, n - 1);
    }
  }

  /** At every point of every run the world is a forest: each parent reference names a live slot of the same
      generation, which has positive uniform scale, and each cached transform is the composition of the local
      transforms down from the root of its tree. */
  lemma {:induction false} RunForest(pl: Platform, s: Snapshot, run: seq<Commit>, n: nat, i: nat)
    requires Run(pl, s, run) && n <= |run| && i < |At(s, run, n).slots| && At(s, run, n).slots[i].entity.Some?
    ensures
      var slots := At(s, run, n).slots;
      var (e, up) := (EntityAt(slots, i), ParentIndex(slots, i));
      && Acyclic(Parents(slots))
      && (e.parent.Some? ==>
            && up >= 0 && Live(slots[up]) && e.parent.value == ParentIdentity(slots[up].uuid, slots[up].generation)
            && Uniform(EntityAt(slots, up).transform.scale))
      && e.transform == Composed(slots, i, |slots|)
  {
    hide Compose, Stamped;
    RunCommitted(pl, s, run, n);
    var w := At(s, run, n);
    assert LinkSound(w.slots, i) && ScaleSound(w.slots, i);
    assert Ends(Parents(w.slots), i, |w.slots|);
    CacheIsComposition(w.seed, w.slots, i, |w.slots|);
  }

  lemma RunStep(pl: Platform, s: Snapshot, run: seq<Commit>, k: nat)
    requires Run(pl, s, run) && k < |run| && Committed(At(s, run, k))
    ensures
      var (a, b) := (At(s, run, k), At(s, run, k + 1));
      && Committed(b) && b.revision == a.revision + 1
      && Evolves(a.slots, b.slots, a.revision + 1) && NewIdentities(a.slots, b.slots, run[k].created)
  {
    hide Committed, Evolves, NewIdentities;
    var a := At(s, run, k);
    var e, admission, bindings :| Admitted(admission) && Publication(pl, a, run[k], e, admission, bindings);
    StageCommits(pl, a, e, admission, bindings);
  }

  lemma EvolvesLater(slots: seq<Slot>, slots': seq<Slot>, since: nat, earlier: nat)
    requires Evolves(slots, slots', since) && earlier <= since
    ensures Evolves(slots, slots', earlier)
  {
    forall i | 0 <= i < |slots|
      ensures SlotEvolves(slots[i], slots'[i], earlier)
    {
      assert SlotEvolves(slots[i], slots'[i], since);
    }
  }

  lemma {:induction false} RunEvolves(pl: Platform, s: Snapshot, run: seq<Commit>, i: nat, j: nat)
    requires Run(pl, s, run) && i <= j <= |run|
    ensures Evolves(At(s, run, i).slots, At(s, run, j).slots, At(s, run, i).revision + 1)
    decreases j
  {
    hide Committed, Evolves, NewIdentities, Publishes;
    var a := At(s, run, i);
    if i == j {
      EvolvesReflexive(a.slots, a.revision + 1);
    } else {
      RunEvolves(pl, s, run, i, j - 1);
      RunCommitted(pl, s, run, i);
      RunCommitted(pl, s, run, j - 1);
      RunStep(pl, s, run, j - 1);
      var m, b := At(s, run, j - 1), At(s, run, j);
      EvolvesLater(m.slots, b.slots, m.revision + 1, a.revision + 1);
      EvolvesTransitive(a.slots, m.slots, b.slots, a.revision + 1);
    }
  }

  /** Stamps never exceed the world revision and date the last change of an identity:
      an entity that differs between two committed worlds is stamped after the earlier one. */
  lemma StampsDateChanges(pl: Platform, s: Snapshot, run: seq<Commit>, i: nat, j: nat, k: nat)
    requires Run(pl, s, run) && i <= j <= |run|
    requires
      var (a, b) := (At(s, run, i).slots, At(s, run, j).slots);
      k < |a| && k < |b| && Live(a[k]) && Live(b[k]) && a[k].generation == b[k].generation
    ensures
      var (a, b) := (At(s, run, i), At(s, run, j));
      && b.slots[k].entity.value.revision <= b.revision
      && (a.slots[k].entity != b.slots[k].entity ==> a.revision < b.slots[k].entity.value.revision)
  {
    RunEvolves(pl, s, run, i, j);
    RunCommitted(pl, s, run, j);
    assert SlotEvolves(At(s, run, i).slots[k], At(s, run, j).slots[k], At(s, run, i).revision + 1);
  }

  lemma {:induction false} RunIdentities(pl: Platform, s: Snapshot, run: seq<Commit>, n: nat)
    requires Run(pl, s, run) && n <= |run|
    ensures NewIdentities(s.slots, At(s, run, n).slots, AllCreated(run, n))
  {
    hide Committed, Evolves, NewIdentities, Publishes;
    if n == 0 {
      NoIdentities(s.slots);
    } else {
      RunIdentities(pl, s, run, n - 1);
      RunCommitted(pl, s, run, n - 1);
      RunStep(pl, s, run, n - 1);
      RunEvolves(pl, s, run, 0, n - 1);
      var m := At(s, run, n - 1);
      EvolvesLater(m.slots, At(s, run, n).slots, m.revision + 1, s.revision + 1);
      NewIdentitiesGrow(s.slots, m.slots, At(s, run, n).slots, s.revision + 1, AllCreated(run, n - 1), run[n - 1].created);
    }
  }

  lemma NoIdentities(slots: seq<Slot>)
    ensures NewIdentities(slots, slots, [])
  {
  }

  /** Over any run, no identity is ever bound by two creates. */
  lemma {:induction false} NeverReissued(pl: Platform, s: Snapshot, run: seq<Commit>, j: nat, k: nat)
    requires Run(pl, s, run) && j < k < |AllCreated(run, |run|)|
    ensures
      var all := AllCreated(run, |run|);
      all[j].uuid != all[k].uuid || all[j].generation != all[k].generation
  {
    RunIdentities(pl, s, run, |run|);
  }

  /** A stale handle is stale for ever, and a retired slot never changes again. */
  lemma StaleForever(pl: Platform, s: Snapshot, run: seq<Commit>, i: nat, j: nat, uuid: Text, generation: nat)
    requires Run(pl, s, run) && i <= j <= |run|
    ensures Stale(At(s, run, i).slots, uuid, generation) ==> Stale(At(s, run, j).slots, uuid, generation)
    ensures forall k :: 0 <= k < |At(s, run, i).slots| && At(s, run, i).slots[k].retired ==>
      k < |At(s, run, j).slots| && At(s, run, j).slots[k] == At(s, run, i).slots[k]
  {
    RunEvolves(pl, s, run, i, j);
    BoundStays(At(s, run, i).slots, At(s, run, j).slots, At(s, run, i).revision + 1, uuid, generation);
    forall k | 0 <= k < |At(s, run, i).slots| && At(s, run, i).slots[k].retired
      ensures At(s, run, j).slots[k] == At(s, run, i).slots[k]
    {
      assert SlotEvolves(At(s, run, i).slots[k], At(s, run, j).slots[k], At(s, run, i).revision + 1);
    }
  }

  /** A stale handle never resolves: every operation that targets it is rejected. */
  lemma StaleRejected(cx: Context, st: Staging, target: EntityTarget, operation: nat)
    requires StagedSound(cx, st.slots) && Stale(st.slots, target.uuid, target.generation)
    ensures Resolve(cx, st, Handle(target), operation).Err?
  {
    var i :| 0 <= i < |st.slots| && StaleAt(st.slots[i], target.uuid, target.generation);
    var at := FindUuid(st.slots, target.uuid, 0);
    assert SlotSound(cx.seed, st.slots[i], i);
    if at < |st.slots| {
      assert SlotSound(cx.seed, st.slots[at], at);
      UuidInjective(cx.seed, i, at);
    }
  }
}
