/** The Coordinator: staging a batch on a copy of the world with loops and a work queue, then publishing it. */
module Coordinator {
  import opened Prelude
  import opened Texts
  import opened Geometry
  import opened Forest
  import opened Worlds
  import opened Commands
  import opened PolicyRules
  import opened Batch
  import opened Hierarchy
  import opened Operations
  import opened Lifetimes

  function TryCompose(parent: Transform, local: Transform, operation: nat): Result<Transform, Error> {
    if !Uniform(parent.scale) || !NonZero(Compose(parent, local).scale) then Reject("INVALID_SCHEMA", operation)
    else Ok(Compose(parent, local))
  }

  function TryRelative(parent: Transform, value: Transform, operation: nat): Result<Transform, Error> {
    if !Uniform(parent.scale) || !NonZero(Relative(parent, value).scale) then Reject("INVALID_SCHEMA", operation)
    else Ok(Relative(parent, value))
  }

  // The breadth-first refresh

  /** Slot `i` once it has been met by the queue, and stamped if it has been taken from it. */
  function Visited(slots: seq<Slot>, root: nat, revision: u64, i: nat, met: bool, taken: bool): Slot
    requires i < |slots| && (met ==> slots[i].entity.Some?)
  {
    if !met then slots[i]
    else
      var e := EntityAt(slots, i);
      slots[i].(entity := Some(e.(transform := Derived(slots, root, i, |slots|),
                                  revision := if taken then revision else e.revision)))
  }

  /** The queue holds distinct slots under the root, each met through its parent; the children of the
      first `at` entries have all been met, and of the entry at `at` those below `c`. */
  ghost predicate Met(before: seq<Slot>, queue: seq<nat>, root: nat, at: nat, c: nat) {
    var par, n := Parents(before), |before|;
    && 0 < |queue| <= n && queue[0] == root && at <= |queue|
    && (forall k :: 0 <= k < |queue| ==> queue[k] < n && before[queue[k]].entity.Some? && Within(par, root, queue[k], n))
    && (forall j, k :: 0 <= j < k < |queue| ==> queue[j] != queue[k])
    && (forall k :: 1 <= k < |queue| ==>
          par[queue[k]] in queue[..at] || (at < |queue| && par[queue[k]] == queue[at] && queue[k] < c))
    && (forall i :: 0 <= i < n && par[i] in queue[..at] ==> i in queue)
    && (at < |queue| ==> forall i :: 0 <= i < n && i < c && par[i] == queue[at] ==> i in queue)
  }

  /** Slots met carry their derived transform; those already taken from the queue are stamped. */
  ghost predicate Cached(before: seq<Slot>, slots: seq<Slot>, queue: seq<nat>, root: nat, revision: u64, taken: nat) {
    && |slots| == |before| && taken <= |queue|
    && (forall k :: 0 <= k < |queue| ==> queue[k] < |before| && before[queue[k]].entity.Some?)
    && (forall i :: 0 <= i < |before| ==> slots[i] == Visited(before, root, revision, i, i in queue, i in queue[..taken]))
  }

  lemma ExploredStart(seed: u32, before: seq<Slot>, root: nat, revision: u64)
    requires SoundBut(seed, before, root) && root < |before| && before[root].entity.Some?
    ensures Met(before, [root], root, 0, 0) && Cached(before, before, [root], root, revision, 0)
  {
    assert Derived(before, root, root, |before|) == EntityAt(before, root).transform;
  }

  /** The next entry is taken from the queue and stamped. */
  lemma TakeNext(before: seq<Slot>, slots: seq<Slot>, queue: seq<nat>, root: nat, revision: u64, at: nat)
    requires Met(before, queue, root, at, 0) && Cached(before, slots, queue, root, revision, at) && at < |queue|
    ensures slots[queue[at]].entity.Some?
    ensures Cached(before, WithEntity(slots, queue[at], EntityAt(slots, queue[at]).(revision := revision)), queue,
                   root, revision, at + 1)
  {
    hide Derived, Within, Met;
    MetDistinct(before, queue, root, at);
    assert queue[at] in queue && queue[..at + 1] == queue[..at] + [queue[at]];
  }

  lemma MetDistinct(before: seq<Slot>, queue: seq<nat>, root: nat, at: nat)
    requires Met(before, queue, root, at, 0) && at < |queue|
    ensures queue[at] !in queue[..at]
  {
    hide Within;
  }

  /** A slot met is not met again: it has one parent, and the root has none under it. */
  lemma MeetOnce(seed: u32, before: seq<Slot>, queue: seq<nat>, root: nat, at: nat, c: nat)
    requires SoundBut(seed, before, root) && root < |before|
    requires Met(before, queue, root, at, c) && at < |queue|
    requires c < |before| && ParentIndex(before, c) == queue[at]
    ensures c !in queue && |queue| < |before|
  {
    assert queue[at] !in queue[..at];
    WithinStep(before, root, root);
    hide Within, SoundBut;
    forall k | 0 <= k < |queue|
      ensures queue[k] != c
    {
      assert k >= 1 ==> Parents(before)[queue[k]] in queue[..at] || (Parents(before)[queue[k]] == queue[at] && queue[k] < c);
    }
    DistinctBound(queue + [c], |before|);
  }

  /** A child is met and joins the queue. */
  lemma MeetChild(seed: u32, before: seq<Slot>, queue: seq<nat>, root: nat, at: nat, c: nat)
    requires SoundBut(seed, before, root) && root < |before|
    requires Met(before, queue, root, at, c) && at < |queue|
    requires c < |before| && ParentIndex(before, c) == queue[at]
    ensures Met(before, queue + [c], root, at, c + 1)
  {
    MeetOnce(seed, before, queue, root, at, c);
    WithinStep(before, root, c);
    hide Within, SoundBut;
    var met := queue + [c];
    assert met[..at] == queue[..at];
    assert forall i :: i in met <==> i in queue || i == c;
  }

  /** Its derived transform exists and is cached. */
  lemma CacheChild(seed: u32, before: seq<Slot>, slots: seq<Slot>, queue: seq<nat>, root: nat, revision: u64,
                   at: nat, c: nat, operation: nat)
    requires SoundBut(seed, before, root) && root < |before|
    requires Met(before, queue, root, at, c) && Cached(before, slots, queue, root, revision, at + 1) && at < |queue|
    requires c < |before| && ParentIndex(before, c) == queue[at]
    ensures slots[c].entity.Some? && slots[queue[at]].entity.Some?
    ensures
      var t := TryCompose(EntityAt(slots, queue[at]).transform, EntityAt(slots, c).local, operation);
      && t.Ok?
      && Cached(before, WithEntity(slots, c, EntityAt(slots, c).(transform := t.value)), queue + [c], root, revision, at + 1)
  {
    MeetOnce(seed, before, queue, root, at, c);
    assert queue[at] in queue && c !in queue && c != root;
    DerivedChild(seed, before, root, c, operation);
    assert EntityAt(slots, queue[at]).transform == Derived(before, root, queue[at], |before|);
    assert slots[c] == before[c];
    CacheOne(before, slots, queue, root, revision, at + 1, c);
  }

  lemma {:induction false} CacheOne(before: seq<Slot>, slots: seq<Slot>, queue: seq<nat>, root: nat, revision: u64, taken: nat, c: nat)
    requires Cached(before, slots, queue, root, revision, taken)
    requires c < |before| && c !in queue && before[c].entity.Some? && slots[c] == before[c]
    ensures Cached(before, WithEntity(slots, c, EntityAt(slots, c).(transform := Derived(before, root, c, |before|))),
                   queue + [c], root, revision, taken)
  {
    hide Derived;
    var met := queue + [c];
    assert met[..taken] == queue[..taken];
    assert forall i :: i in met <==> i in queue || i == c;
  }

  /** The transform of a child under `root` is composed from that of its parent, without rejection. */
  lemma {:induction false} DerivedChild(seed: u32, before: seq<Slot>, root: nat, c: nat, operation: nat)
    requires SoundBut(seed, before, root) && root < |before| && c < |before| && c != root
    requires ParentIndex(before, c) >= 0 && Within(Parents(before), root, ParentIndex(before, c), |before|)
    ensures before[c].entity.Some?
    ensures TryCompose(Derived(before, root, ParentIndex(before, c), |before|), EntityAt(before, c).local, operation)
            == Ok(Derived(before, root, c, |before|))
  {
    hide Compose, Uniform, Derived, Within, LinkSound, ScaleSound, Coherent;
    var p, n := ParentIndex(before, c), |before|;
    assert Ends(Parents(before), p, n);
    EdgeDerived(before, root, c);
    DerivedSound(seed, before, root, p, n);
    assert SlotSound(seed, before[c], c);
    DerivedProper(Derived(before, root, p, n), EntityAt(before, c).local);
  }

  lemma ProperNonZero(t: Transform)
    ensures Proper(t) ==> NonZero(t.scale)
  {
  }

  lemma MeetNone(before: seq<Slot>, queue: seq<nat>, root: nat, at: nat, c: nat)
    requires Met(before, queue, root, at, c) && at < |queue| && c < |before| && ParentIndex(before, c) != queue[at]
    ensures Met(before, queue, root, at, c + 1)
  {
    hide Within;
  }

  lemma MeetNext(before: seq<Slot>, queue: seq<nat>, root: nat, at: nat)
    requires Met(before, queue, root, at, |before|) && at < |queue|
    ensures Met(before, queue, root, at + 1, 0)
  {
    hide Within, ParentIndex, Parents;
    PrefixNext(queue, at);
  }

  lemma PrefixNext(queue: seq<nat>, at: nat)
    requires at < |queue|
    ensures forall p: int :: p in queue[..at + 1] <==> p in queue[..at] || p == queue[at]
  {
    assert queue[..at + 1] == queue[..at] + [queue[at]];
  }

  lemma {:induction false} AllMet(before: seq<Slot>, queue: seq<nat>, root: nat, i: int, f: nat)
    requires Met(before, queue, root, |queue|, 0)
    requires i < |before| && Within(Parents(before), root, i, f)
    ensures i in queue
    decreases f
  {
    if i != root {
      AllMet(before, queue, root, Parents(before)[i], f - 1);
      assert queue[..|queue|] == queue;
    }
  }

  /** An exhausted queue has met exactly the subtree of the root. */
  lemma ExploredDone(before: seq<Slot>, slots: seq<Slot>, queue: seq<nat>, root: nat, revision: u64)
    requires Met(before, queue, root, |queue|, 0) && Cached(before, slots, queue, root, revision, |queue|)
    ensures slots == Refresh(before, root, revision)
  {
    assert queue[..|queue|] == queue;
    forall i | 0 <= i < |before|
      ensures i in queue <==> Within(Parents(before), root, i, |before|)
    {
      if Within(Parents(before), root, i, |before|) {
        AllMet(before, queue, root, i, |before|);
      }
    }
    hide Derived, Within;
    forall i | 0 <= i < |before|
      ensures slots[i] == Refreshed(before, root, revision, i)
    {
    }
  }

  /** Slots differ from `before` in cached transforms and stamps only. */
  predicate SameFrame(before: seq<Slot>, slots: seq<Slot>) {
    |slots| == |before| && forall i :: 0 <= i < |before| ==>
      && slots[i].uuid == before[i].uuid && slots[i].generation == before[i].generation
      && slots[i].entity.Some? == before[i].entity.Some?
      && (before[i].entity.Some? ==> slots[i].entity.value.parent == before[i].entity.value.parent)
  }

  /** Refreshes the subtree of `root`. On a sound world neither the scale check nor the cycle check
      can reject: each descendant is met exactly once. */
  method Subtree(before: seq<Slot>, root: nat, revision: u64, operation: nat, ghost seed: u32)
    returns (r: Result<seq<Slot>, Error>)
    requires root < |before| && before[root].entity.Some?
    ensures SoundBut(seed, before, root) ==> r == Ok(Refresh(before, root, revision))
  {
    hide Compose, Proper, Uniform, Within, SoundBut, Refresh, Derived, Parents, TryCompose, Met, Cached;
    ghost var sound := SoundBut(seed, before, root);
    var slots := before;
    var queue: seq<nat> := [root];
    var at: nat := 0;
    if sound {
      ExploredStart(seed, before, root, revision);
    }
    while at < |queue|
      invariant at <= |queue| <= |before| && SameFrame(before, slots)
      invariant forall k :: 0 <= k < |queue| ==> queue[k] < |before| && before[queue[k]].entity.Some?
      invariant sound ==> Met(before, queue, root, at, 0) && Cached(before, slots, queue, root, revision, at)
      decreases |before| - at
    {
      var parent := queue[at];
      if sound {
        TakeNext(before, slots, queue, root, revision, at);
      }
      slots := WithEntity(slots, parent, EntityAt(slots, parent).(revision := revision));
      var c: nat := 0;
      while c < |slots|
        invariant at < |queue| <= |before| && SameFrame(before, slots) && c <= |before| && queue[at] == parent
        invariant forall k :: 0 <= k < |queue| ==> queue[k] < |before| && before[queue[k]].entity.Some?
        invariant sound ==> Met(before, queue, root, at, c) && Cached(before, slots, queue, root, revision, at + 1)
      {
        if sound {
          ChildIsIndexed(seed, before, root, c, parent);
        }
        if ChildOf(slots[c], slots[parent]) {
          if sound {
            MeetOnce(seed, before, queue, root, at, c);
            MeetChild(seed, before, queue, root, at, c);
            CacheChild(seed, before, slots, queue, root, revision, at, c, operation);
          }
          if |queue| >= |slots| {
            return Reject("INVALID_SCHEMA", operation);
          }
          var t := TryCompose(EntityAt(slots, parent).transform, EntityAt(slots, c).local, operation);
          if t.Err? {
            return Err(t.error);
          }
          slots := WithEntity(slots, c, EntityAt(slots, c).(transform := t.value));
          queue := queue + [c];
        } else if sound {
          MeetNone(before, queue, root, at, c);
        }
        c := c + 1;
      }
      if sound {
        MeetNext(before, queue, root, at);
      }
      at := at + 1;
    }
    if sound {
      ExploredDone(before, slots, queue, root, revision);
    }
    r := Ok(slots);
  }

  lemma ChildIsIndexed(seed: u32, slots: seq<Slot>, root: int, c: nat, p: nat)
    requires SoundBut(seed, slots, root) && c < |slots| && p < |slots| && slots[p].entity.Some?
    ensures ChildOf(slots[c], slots[p]) <==> ParentIndex(slots, c) == p
  {
    assert SlotSound(seed, slots[p], p);
    if ChildOf(slots[c], slots[p]) {
      assert forall k :: 0 <= k < |slots| ==> SlotSound(seed, slots[k], k);
      LinkFound(seed, slots, c, p);
    }
  }

  // Re-parenting

  /** What `reparent` does to the slot itself. */
  function Reparented(slots: seq<Slot>, at: nat, up: int, mode: Mode, operation: nat): Result<seq<Slot>, Error>
    requires at < |slots| && slots[at].entity.Some? && up < |slots| && (up >= 0 ==> slots[up].entity.Some?)
  {
    if up >= 0 && Within(Parents(slots), at, up, |slots|) then Reject("INVALID_SCHEMA", operation)
    else if up >= 0 && !Uniform(EntityAt(slots, up).transform.scale) then Reject("INVALID_SCHEMA", operation)
    else Ok(WithEntity(slots, at, Hung(slots, at, up, mode)))
  }

  lemma {:induction false} WalkStep(slots: seq<Slot>, at: nat, up: nat, node: nat, count: nat)
    requires Acyclic(Parents(slots)) && at < |slots| && up < |slots| && node < |slots|
    requires Within(Parents(slots), at, up, |slots|) == Within(Parents(slots), at, node, |slots|)
    requires |Ancestors(Parents(slots), up)| == count + |Ancestors(Parents(slots), node)|
    ensures count < |slots|
    ensures node != at ==>
      && Within(Parents(slots), at, up, |slots|) == Within(Parents(slots), at, ParentIndex(slots, node), |slots|)
      && |Ancestors(Parents(slots), up)| == count + 1 + |Ancestors(Parents(slots), ParentIndex(slots, node))|
    ensures node == at ==> Within(Parents(slots), at, up, |slots|)
  {
    AncestorsStep(Parents(slots), node);
    WithinStep(slots, at, node);
    assert |Ancestors(Parents(slots), up)| <= |slots|;
  }

  /** Walks the ancestors of the new parent; then hangs the slot there. On a sound world the walk meets
      the slot itself exactly when the parent lies in its subtree, and ends within the slot count. */
  method ReparentSlot(slots: seq<Slot>, at: nat, up: int, mode: Mode, operation: nat, ghost seed: u32)
    returns (r: Result<seq<Slot>, Error>)
    requires at < |slots| && slots[at].entity.Some?
    requires -1 <= up < |slots| && (up >= 0 ==> slots[up].entity.Some?)
    ensures Sound(seed, slots) ==> r == Reparented(slots, at, up, mode, operation)
  {
    hide Compose, Uniform, Relative, NonZero, TryCompose, TryRelative, Within;
    ghost var sound := Sound(seed, slots);
    var ancestor: int, count: nat := up, 0;
    while ancestor >= 0
      invariant -1 <= ancestor < |slots| && count <= |slots| + 1 && (up < 0 ==> ancestor < 0)
      invariant sound && up >= 0 ==>
        && Within(Parents(slots), at, up, |slots|) == Within(Parents(slots), at, ancestor, |slots|)
        && |Ancestors(Parents(slots), up)| == count + |Ancestors(Parents(slots), ancestor)|
      decreases |slots| + 1 - count
    {
      if sound {
        WalkStep(slots, at, up, ancestor, count);
      }
      if ancestor == at || count >= |slots| {
        return Reject("INVALID_SCHEMA", operation);
      }
      if slots[ancestor].entity.Some? && slots[ancestor].entity.value.parent.Some? && ParentIndex(slots, ancestor) < 0 {
        assert !LinkSound(slots, ancestor);
        return Err(Error("STALE_HANDLE", None));
      }
      ancestor := ParentIndex(slots, ancestor);
      count := count + 1;
    }
    NoRoot(slots, at);
    var e := EntityAt(slots, at);
    var local := if e.parent.Some? then e.local else e.transform;
    if up >= 0 {
      var anchor := EntityAt(slots, up).transform;
      if !Uniform(anchor.scale) {
        return Reject("INVALID_SCHEMA", operation);
      }
      if sound {
        HungAccepted(seed, slots, at, up, operation);
      }
      if mode.PreserveWorld? {
        var t := TryRelative(anchor, e.transform, operation);
        if t.Err? {
          return Err(t.error);
        }
        e := e.(local := t.value);
      } else {
        var t := TryCompose(anchor, local, operation);
        if t.Err? {
          return Err(t.error);
        }
        e := e.(local := local, transform := t.value);
      }
      e := e.(parent := Some(ParentIdentity(slots[up].uuid, slots[up].generation)));
    } else {
      if mode.PreserveLocal? {
        e := e.(transform := local);
      }
      e := e.(parent := None, local := IDENTITY);
    }
    r := Ok(WithEntity(slots, at, e));
  }

  /** Derived transforms of a sound world are never rejected. */
  lemma HungAccepted(seed: u32, slots: seq<Slot>, at: nat, up: nat, operation: nat)
    requires Sound(seed, slots) && at < |slots| && slots[at].entity.Some? && up < |slots| && slots[up].entity.Some?
    requires Uniform(EntityAt(slots, up).transform.scale)
    ensures
      var (e, anchor) := (EntityAt(slots, at), EntityAt(slots, up).transform);
      var local := if e.parent.Some? then e.local else e.transform;
      && TryRelative(anchor, e.transform, operation) == Ok(Relative(anchor, e.transform))
      && TryCompose(anchor, local, operation) == Ok(Compose(anchor, local))
  {
    hide Compose, Uniform, Relative;
    assert SlotSound(seed, slots[at], at) && SlotSound(seed, slots[up], up);
    DerivedProper(EntityAt(slots, up).transform, EntityAt(slots, at).transform);
    DerivedProper(EntityAt(slots, up).transform, EntityAt(slots, at).local);
  }

  // One operation, and the batch

  function WithSlots(st: Staging, slots: Result<seq<Slot>, Error>): Result<Staging, Error> {
    match slots
    case Ok(s) => Ok(st.(slots := s))
    case Err(e) => Err(e)
  }

  /** One operation on the staged copy. */
  method Execute(cx: Context, st: Staging, op: Operation, operation: nat) returns (r: Result<Staging, Error>)
    requires StagedSound(cx, st.slots) && Guarded(st)
    ensures r == Step(cx, st, op, operation)
  {
    hide Compose, Proper, Uniform, Relative, Refresh, Placed, Hung, Within, Sound, SoundBut;
    match op
    case Create(_, _) => r := DoCreate(cx, st, op, operation);
    case SetTags(_, _) => r := DoTags(cx, st, op, operation);
    case Delete(_) => r := DoDelete(cx, st, op, operation);
    case SetTransform(target, value) => r := ExecuteTransform(cx, st, op, operation);
    case Reparent(target, parent, mode) => r := ExecuteReparent(cx, st, op, operation);
  }

  method ExecuteTransform(cx: Context, st: Staging, op: Operation, operation: nat) returns (r: Result<Staging, Error>)
    requires StagedSound(cx, st.slots) && Guarded(st) && op.SetTransform?
    ensures r == DoTransform(cx, st, op, operation)
  {
    hide Compose, Relative, Refresh, Within, NonZero;
    if !Proper(op.value) {
      return Reject("INVALID_SCHEMA", operation);
    }
    var at :- Resolve(cx, st, op.target, operation);
    var guard :- HookTransform(st.guard, at, EntityAt(st.slots, at).transform, op.value, operation);
    if HasChildren(st.slots, at) && !Uniform(op.value.scale) {
      return Reject("INVALID_SCHEMA", operation);
    }
    var e, up := EntityAt(st.slots, at), ParentIndex(st.slots, at);
    if up < 0 && e.parent.Some? {
      return Err(Error("STALE_HANDLE", None));
    }
    if up >= 0 {
      var local := TryRelative(EntityAt(st.slots, up).transform, op.value, operation);
      if Uniform(EntityAt(st.slots, up).transform.scale) {
        assert SlotSound(cx.seed, st.slots[up], up);
        DerivedProper(EntityAt(st.slots, up).transform, op.value);
        ProperNonZero(Relative(EntityAt(st.slots, up).transform, op.value));
      }
      if local.Err? {
        return Err(local.error);
      }
      e := e.(local := local.value);
    }
    PlacedSound(cx.seed, st.slots, at, op.value);
    var slots := Subtree(WithEntity(st.slots, at, e.(transform := op.value)), at, cx.next, operation, cx.seed);
    r := WithSlots(st.(guard := guard), slots);
  }

  method ExecuteReparent(cx: Context, st: Staging, op: Operation, operation: nat) returns (r: Result<Staging, Error>)
    requires StagedSound(cx, st.slots) && Guarded(st) && op.Reparent?
    ensures r == DoReparent(cx, st, op, operation)
  {
    hide Compose, Proper, Uniform, Relative, Refresh, Hung, Sound, SoundBut;
    var at :- Resolve(cx, st, op.target, operation);
    var up: int := -1;
    if op.parent.Some? {
      up :- Resolve(cx, st, op.parent.value, operation);
    }
    var moved :- ReparentSlot(st.slots, at, up, op.mode, operation, cx.seed);
    NoRoot(st.slots, at);
    HungSound(cx.seed, st.slots, at, up, op.mode);
    var slots := Subtree(moved, at, cx.next, operation, cx.seed);
    r := WithSlots(st, slots);
  }

  /** Stages a whole batch on a copy of the world. */
  method StageBatch(pl: Platform, s: Snapshot, e: Envelope, admission: Option<Admission>, bindings: Option<seq<Binding>>)
    returns (r: Result<Staged, Error>)
    requires Committed(s) && Admitted(admission)
    ensures r == Stage(pl, s, e, admission, bindings)
  {
    hide Step, Sound, SoundBut, Evolves, NewIdentities, Begin, ValidEnvelope, FormatVersion, Finish;
    var guard :- Start(admission, s, e);
    var bad := Headers(pl, s, e);
    if bad.Some? {
      return Err(bad.value);
    }
    OperationsFit(pl, e);
    var cx := Context(s.worldId, s.seed, s.maxSlots, s.revision + 1, bindings);
    var first := Staging(s.slots, map[], [], guard);
    var st, index := first, 0;
    while index < |e.operations|
      invariant index <= |e.operations| && Guarded(st)
      invariant Steps(cx, first, e.operations, index) == Ok(st)
      invariant StagedSound(cx, st.slots)
    {
      var next := Execute(cx, st, e.operations[index], index);
      assert Steps(cx, first, e.operations, index + 1) == next;
      if next.Err? {
        StepsFail(cx, first, e.operations, index + 1, |e.operations|);
        return Err(next.error);
      }
      StepSound(cx, st, e.operations[index], index);
      st, index := next.value, index + 1;
    }
    r := Close(s, cx.next, bindings, st);
  }

  /** The first rejection is the outcome of the batch. */
  lemma {:induction false} StepsFail(cx: Context, st: Staging, ops: seq<Operation>, m: nat, n: nat)
    requires m <= n <= |ops| && Guarded(st) && Steps(cx, st, ops, m).Err?
    ensures Steps(cx, st, ops, n) == Steps(cx, st, ops, m)
    decreases n
  {
    hide Step;
    if m < n {
      StepsFail(cx, st, ops, m, n - 1);
    }
  }

  function CommittedReceipt(e: Envelope, staged: Staged): Receipt {
    Receipt(COMMITTED, VOLATILE, e.transactionId, staged.after.revision, staged.created, [])
  }

  function RejectedReceipt(e: Envelope, revision: u64, error: Error, guarded: bool): Receipt {
    Receipt(REJECTED, VOLATILE, if !guarded || |e.transactionId| <= 128 then e.transactionId else [], revision, [], [error])
  }

  /** Applies a batch: either the whole of it is published, or the world is untouched. */
  method Apply(pl: Platform, world: World, e: Envelope, admission: Option<Admission>, bindings: Option<seq<Binding>>)
    returns (receipt: Receipt, guard: Option<Guard>)
    requires Committed(world.state) && Admitted(admission)
    modifies world
    ensures Committed(world.state)
    ensures
      var r := Stage(pl, old(world.state), e, admission, bindings);
      if r.Ok? then
        world.state == r.value.after && receipt == CommittedReceipt(e, r.value) && guard == r.value.guard
      else
        world.state == old(world.state) && guard == None
        && receipt == RejectedReceipt(e, old(world.state).revision, r.error, admission.Some?)
  {
    hide Committed, Stage;
    var staged := StageBatch(pl, world.state, e, admission, bindings);
    if staged.Err? {
      return RejectedReceipt(e, world.state.revision, staged.error, admission.Some?), None;
    }
    StageCommits(pl, world.state, e, admission, bindings);
    world.state := staged.value.after;
    return CommittedReceipt(e, staged.value), staged.value.guard;
  }
}
