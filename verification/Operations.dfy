/** Each operation of a batch keeps the invariant of the world. */
module Operations {
  import opened Prelude
  import opened Texts
  import opened Geometry
  import opened Forest
  import opened Worlds
  import opened Commands
  import opened PolicyRules
  import opened Batch
  import opened Hierarchy

  /** The staged slots are sound and within the capacity of the world. */
  ghost predicate StagedSound(cx: Context, slots: seq<Slot>) {
    Sound(cx.seed, slots) && |slots| <= cx.maxSlots <= SLOT_LIMIT
  }

  lemma PlacedSound(seed: u32, slots: seq<Slot>, at: nat, value: Transform)
    requires Sound(seed, slots) && at < |slots| && Live(slots[at]) && Proper(value)
    requires HasChildren(slots, at) ==> Uniform(value.scale)
    requires ParentIndex(slots, at) >= 0 ==> Uniform(EntityAt(slots, ParentIndex(slots, at)).transform.scale)
    ensures SoundBut(seed, WithEntity(slots, at, Placed(slots, at, value)), at)
  {
    hide Compose, Proper, Uniform, Relative, Within;
    var up, moved := ParentIndex(slots, at), WithEntity(slots, at, Placed(slots, at, value));
    ParentsSame(slots, moved);
    assert LinkSound(slots, at) && SlotSound(seed, slots[at], at);
    ChildrenFound(seed, slots, -1, at);
    if up >= 0 {
      assert SlotSound(seed, slots[up], up);
      DerivedProper(EntityAt(slots, up).transform, value);
      ComposeRelative(EntityAt(slots, up).transform, value);
      WithinSelf(slots, at);
    }
    forall i | 0 <= i < |slots|
      ensures SlotSound(seed, moved[i], i) && LinkSound(moved, i) && ScaleSound(moved, i)
      ensures ParentIndex(moved, i) != at ==> Coherent(moved, i)
    {
      assert Parents(moved)[i] == Parents(slots)[i];
      assert SlotSound(seed, slots[i], i) && LinkSound(slots, i) && ScaleSound(slots, i) && Coherent(slots, i);
      var p := ParentIndex(slots, i);
      if p >= 0 {
        assert Parents(moved)[p] == Parents(slots)[p];
      }
    }
  }

  /** No slot is its own parent. */
  lemma WithinSelf(slots: seq<Slot>, at: nat)
    requires Acyclic(Parents(slots)) && at < |slots|
    ensures ParentIndex(slots, at) != at
  {
    AncestorsStep(Parents(slots), at);
  }

  lemma HungParents(seed: u32, slots: seq<Slot>, at: nat, up: int, mode: Mode)
    requires Sound(seed, slots) && at < |slots| && Live(slots[at]) && up < |slots|
    requires up >= 0 ==> Live(slots[up]) && Uniform(EntityAt(slots, up).transform.scale)
    ensures Parents(WithEntity(slots, at, Hung(slots, at, up, mode))) == Parents(slots)[at := if up >= 0 then up else -1]
  {
    hide Compose, Proper, Uniform, Relative, Within;
    var moved := WithEntity(slots, at, Hung(slots, at, up, mode));
    forall k | 0 <= k < |slots|
      ensures moved[k].uuid == Uuid(seed, k)
    {
      assert SlotSound(seed, slots[k], k);
    }
    forall i | 0 <= i < |slots|
      ensures ParentIndex(moved, i) == if i != at then ParentIndex(slots, i) else if up >= 0 then up else -1
    {
      if i == at && up >= 0 {
        LinkFound(seed, moved, at, up);
      } else if i != at && ParentIndex(slots, i) >= 0 {
        LinkFound(seed, moved, i, ParentIndex(slots, i));
      } else {
        assert LinkSound(slots, i);
      }
    }
  }

  /** Scales of a hung entity: uniform again if it has children. */
  lemma HungScale(seed: u32, slots: seq<Slot>, at: nat, up: int, mode: Mode)
    requires Sound(seed, slots) && at < |slots| && Live(slots[at]) && up < |slots|
    requires up >= 0 ==> Live(slots[up]) && Uniform(EntityAt(slots, up).transform.scale)
    ensures
      var e := Hung(slots, at, up, mode);
      && Proper(e.transform) && Proper(e.local)
      && (up >= 0 ==> e.transform == Compose(EntityAt(slots, up).transform, e.local))
      && forall c :: 0 <= c < |slots| && ParentIndex(slots, c) == at ==>
           Uniform(e.transform.scale) && (up >= 0 ==> Uniform(e.local.scale))
  {
    hide Compose, Proper, Uniform, Relative, Within;
    var e := EntityAt(slots, at);
    var local := if e.parent.Some? then e.local else e.transform;
    assert SlotSound(seed, slots[at], at) && LinkSound(slots, at);
    IdentityProper();
    if up >= 0 {
      assert SlotSound(seed, slots[up], up);
      DerivedProper(EntityAt(slots, up).transform, local);
      DerivedProper(EntityAt(slots, up).transform, e.transform);
      ComposeRelative(EntityAt(slots, up).transform, e.transform);
    }
    forall c | 0 <= c < |slots| && ParentIndex(slots, c) == at
      ensures Uniform(e.transform.scale) && Uniform(local.scale)
    {
      assert ScaleSound(slots, c);
    }
  }

  lemma IdentityProper()
    ensures Proper(IDENTITY)
  {
  }

  lemma {:induction false} HungSound(seed: u32, slots: seq<Slot>, at: nat, up: int, mode: Mode)
    requires Sound(seed, slots) && at < |slots| && Live(slots[at]) && -1 <= up < |slots|
    requires up >= 0 ==> Live(slots[up]) && Uniform(EntityAt(slots, up).transform.scale)
    requires !Within(Parents(slots), at, up, |slots|)
    ensures SoundBut(seed, WithEntity(slots, at, Hung(slots, at, up, mode)), at)
  {
    hide Compose, Proper, Uniform, Relative;
    var moved, par := WithEntity(slots, at, Hung(slots, at, up, mode)), Parents(slots);
    HungParents(seed, slots, at, up, mode);
    HungScale(seed, slots, at, up, mode);
    WithinIsAncestry(par, at, up, |slots|);
    MoveAcyclic(par, at, up);
    assert Acyclic(Parents(moved));
    if up >= 0 && ParentIndex(slots, up) >= 0 {
      ParentLocal(seed, slots, up);
    }
    forall i | 0 <= i < |slots|
      ensures SlotSound(seed, moved[i], i) && LinkSound(moved, i) && ScaleSound(moved, i)
      ensures ParentIndex(moved, i) != at ==> Coherent(moved, i)
    {
      assert Parents(moved)[i] == ParentIndex(moved, i);
      assert SlotSound(seed, slots[i], i) && LinkSound(slots, i) && ScaleSound(slots, i) && Coherent(slots, i);
      var p := ParentIndex(moved, i);
      if p >= 0 {
        assert Parents(moved)[p] == ParentIndex(moved, p);
        assert SlotSound(seed, slots[p], p) && ScaleSound(slots, p);
      }
    }
  }

  /** A parent that has a parent is uniform in its own frame too. */
  lemma ParentLocal(seed: u32, slots: seq<Slot>, i: nat)
    requires Sound(seed, slots) && i < |slots| && Live(slots[i]) && ParentIndex(slots, i) >= 0
    requires Uniform(EntityAt(slots, i).transform.scale)
    ensures Uniform(EntityAt(slots, i).local.scale)
  {
    hide Compose, Proper, Uniform, Relative;
    var up := ParentIndex(slots, i);
    assert SlotSound(seed, slots[i], i) && SlotSound(seed, slots[up], up) && ScaleSound(slots, i) && Coherent(slots, i);
    DerivedProper(EntityAt(slots, up).transform, EntityAt(slots, i).local);
  }

  lemma VacatedSound(seed: u32, slots: seq<Slot>, at: nat)
    requires Sound(seed, slots) && at < |slots| && Live(slots[at]) && !HasChildren(slots, at)
    ensures Sound(seed, slots[at := Vacated(slots[at])])
  {
    hide Compose, Proper, Uniform, Relative, Within;
    var left, par := slots[at := Vacated(slots[at])], Parents(slots);
    ChildrenFound(seed, slots, -1, at);
    forall i | 0 <= i < |slots|
      ensures left[i].uuid == Uuid(seed, i) && SlotSound(seed, left[i], i)
    {
      assert SlotSound(seed, slots[i], i);
    }
    forall i | 0 <= i < |slots|
      ensures ParentIndex(left, i) == if i == at then -1 else ParentIndex(slots, i)
    {
      assert LinkSound(slots, i);
      if i != at && ParentIndex(slots, i) >= 0 {
        LinkFound(seed, left, i, ParentIndex(slots, i));
      }
    }
    assert Parents(left) == par[at := -1];
    MoveAcyclic(par, at, -1);
    forall i | 0 <= i < |slots|
      ensures LinkSound(left, i) && ScaleSound(left, i) && Coherent(left, i)
    {
      assert LinkSound(slots, i) && ScaleSound(slots, i) && Coherent(slots, i);
    }
  }

  lemma CreatedSound(seed: u32, slots: seq<Slot>, at: nat, next: u64)
    requires Sound(seed, slots) && at <= |slots| && (at < |slots| ==> Free(slots[at])) && |slots| < SLOT_LIMIT + (if at < |slots| then 1 else 0)
    ensures
      var base := if at < |slots| then slots else slots + [Slot(Uuid(seed, at), 1, false, None)];
      Sound(seed, WithEntity(base, at, Entity(UNIT_CUBE, next, IDENTITY, None, IDENTITY, [])))
  {
    hide Compose, Proper, Uniform, Relative, Within;
    var base := if at < |slots| then slots else slots + [Slot(Uuid(seed, at), 1, false, None)];
    var made, par := WithEntity(base, at, Entity(UNIT_CUBE, next, IDENTITY, None, IDENTITY, [])), Parents(slots);
    IdentityProper();
    forall i | 0 <= i < |made|
      ensures made[i].uuid == Uuid(seed, i) && SlotSound(seed, made[i], i)
    {
      if i < |slots| {
        assert SlotSound(seed, slots[i], i);
      }
    }
    forall i | 0 <= i < |made|
      ensures ParentIndex(made, i) == if i < |slots| then ParentIndex(slots, i) else -1
    {
      if i < |slots| && i != at && ParentIndex(slots, i) >= 0 {
        LinkFound(seed, made, i, ParentIndex(slots, i));
      } else if i < |slots| {
        assert LinkSound(slots, i);
      }
    }
    assert Parents(made) == if at < |slots| then par else par + [-1];
    GrowAcyclic(par);
    forall i | 0 <= i < |made|
      ensures LinkSound(made, i) && ScaleSound(made, i) && Coherent(made, i)
    {
      if i < |slots| {
        assert LinkSound(slots, i) && ScaleSound(slots, i) && Coherent(slots, i);
      }
    }
  }

  /** The only bound an operation puts on what the world stores. */
  predicate OperationFits(op: Operation) {
    op.SetTags? ==> TagsFit(op.tags)
  }

  lemma {:induction false} SortFits(tags: seq<Text>)
    requires TagsFit(tags)
    ensures TagsFit(Sort(tags)) && Sorted(Sort(tags))
  {
    SortSorted(tags);
    assert |Sort(tags)| == |multiset(Sort(tags))| == |multiset(tags)|;
    forall t | t in Sort(tags)
      ensures |t| <= 32
    {
      assert t in multiset(Sort(tags));
      assert t in tags;
    }
  }

  lemma {:induction false} TaggedSound(seed: u32, slots: seq<Slot>, at: nat, tags: seq<Text>, next: u64)
    requires Sound(seed, slots) && at < |slots| && Live(slots[at]) && TagsFit(tags)
    ensures Sound(seed, WithEntity(slots, at, EntityAt(slots, at).(tags := Sort(tags), revision := next)))
  {
    hide Compose, Proper, Uniform, Relative, Within;
    var marked := WithEntity(slots, at, EntityAt(slots, at).(tags := Sort(tags), revision := next));
    SortFits(tags);
    ParentsSame(slots, marked);
    forall i | 0 <= i < |slots|
      ensures SlotSound(seed, marked[i], i) && LinkSound(marked, i) && ScaleSound(marked, i) && Coherent(marked, i)
    {
      assert Parents(marked)[i] == Parents(slots)[i];
      assert SlotSound(seed, slots[i], i) && LinkSound(slots, i) && ScaleSound(slots, i) && Coherent(slots, i);
      var p := ParentIndex(slots, i);
      if p >= 0 {
        assert Parents(marked)[p] == Parents(slots)[p];
      }
    }
  }

  /** Every operation that is not rejected keeps the staged world sound. */
  lemma StepSound(cx: Context, st: Staging, op: Operation, operation: nat)
    requires StagedSound(cx, st.slots) && Guarded(st) && OperationFits(op)
    requires Step(cx, st, op, operation).Ok?
    ensures StagedSound(cx, Step(cx, st, op, operation).value.slots)
  {
    hide Compose, Proper, Uniform, Relative, Refresh, Sound, SoundBut, Placed, Hung, Within, TagsFit;
    match op
    case Create(_, _) =>
      CreatedSound(cx.seed, st.slots, FirstFree(st.slots, 0), cx.next);
    case SetTransform(target, value) =>
      var at := Resolve(cx, st, target, operation).value;
      PlacedSound(cx.seed, st.slots, at, value);
      RefreshSound(cx.seed, WithEntity(st.slots, at, Placed(st.slots, at, value)), at, cx.next);
    case SetTags(target, tags) =>
      TaggedSound(cx.seed, st.slots, Resolve(cx, st, target, operation).value, tags, cx.next);
    case Reparent(target, parent, mode) =>
      var at := Resolve(cx, st, target, operation).value;
      var up := if parent.Some? then ResolveParent(cx, st, parent.value, operation).value else -1;
      NoRoot(st.slots, at);
      HungSound(cx.seed, st.slots, at, up, mode);
      RefreshSound(cx.seed, WithEntity(st.slots, at, Hung(st.slots, at, up, mode)), at, cx.next);
    case Delete(target) =>
      VacatedSound(cx.seed, st.slots, Resolve(cx, st, target, operation).value);
  }

  lemma {:induction false} NoRoot(slots: seq<Slot>, at: nat)
    ensures !Within(Parents(slots), at, -1, |slots|)
  {
  }
}
