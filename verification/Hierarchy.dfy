/** The invariant of every committed world, and the proof that each operation keeps it. */
module Hierarchy {
  import opened Prelude
  import opened Texts
  import opened Geometry
  import opened Motions
  import opened Forest
  import opened Worlds
  import opened Commands
  import opened PolicyRules
  import opened Batch

  predicate TagsFit(tags: seq<Text>) {
    |tags| <= 8 && forall i :: 0 <= i < |tags| ==> |tags[i]| <= 32
  }

  predicate EntitySound(e: Entity) {
    && e.prefab == UNIT_CUBE && Sorted(e.tags) && TagsFit(e.tags)
    && Proper(e.transform) && Proper(e.local)
    && (e.parent.None? ==> e.local == IDENTITY)
  }

  predicate SlotSound(seed: u32, slot: Slot, i: nat) {
    && slot.uuid == Uuid(seed, i) && slot.generation >= 1
    && (slot.retired ==> slot.entity.None? && slot.generation == U64_MAX)
    && (slot.entity.Some? ==> EntitySound(slot.entity.value))
  }

  /** A parent reference names a live slot. */
  predicate LinkSound(slots: seq<Slot>, i: nat)
    requires i < |slots|
  {
    slots[i].entity.Some? && slots[i].entity.value.parent.Some? ==> ParentIndex(slots, i) >= 0
  }

  /** Parents have positive uniform scale, in the world and relative to their own parent. */
  predicate ScaleSound(slots: seq<Slot>, i: nat)
    requires i < |slots|
  {
    var up := ParentIndex(slots, i);
    up >= 0 ==>
      && Uniform(EntityAt(slots, up).transform.scale)
      && (ParentIndex(slots, up) >= 0 ==> Uniform(EntityAt(slots, up).local.scale))
  }

  /** The cached world transform of a child is its parent's, composed with its local one. */
  predicate Coherent(slots: seq<Slot>, i: nat)
    requires i < |slots|
  {
    var up := ParentIndex(slots, i);
    up >= 0 ==> EntityAt(slots, i).transform == Compose(EntityAt(slots, up).transform, EntityAt(slots, i).local)
  }

  /** Everything but the cached transforms of the children of `root`. */
  ghost predicate SoundBut(seed: u32, slots: seq<Slot>, root: int) {
    && |slots| <= SLOT_LIMIT
    && (forall i :: 0 <= i < |slots| ==> SlotSound(seed, slots[i], i))
    && (forall i :: 0 <= i < |slots| ==> LinkSound(slots, i))
    && Acyclic(Parents(slots))
    && (forall i :: 0 <= i < |slots| ==> ScaleSound(slots, i))
    && (forall i :: 0 <= i < |slots| && (root < 0 || ParentIndex(slots, i) != root) ==> Coherent(slots, i))
  }

  ghost predicate Sound(seed: u32, slots: seq<Slot>) {
    SoundBut(seed, slots, -1)
  }

  // Parent lookup

  lemma {:induction false} FindSame(slots: seq<Slot>, slots': seq<Slot>, id: ParentIdentity, from: nat)
    requires |slots| == |slots'| && from <= |slots|
    requires forall i :: 0 <= i < |slots| ==>
      slots'[i].uuid == slots[i].uuid && slots'[i].generation == slots[i].generation && Live(slots'[i]) == Live(slots[i])
    ensures FindIdentity(slots', id, from) == FindIdentity(slots, id, from)
    decreases |slots| - from
  {
    if from < |slots| {
      FindSame(slots, slots', id, from + 1);
    }
  }

  /** The forest depends on identities, liveness and parent references only. */
  lemma ParentsSame(slots: seq<Slot>, slots': seq<Slot>)
    requires |slots| == |slots'|
    requires forall i :: 0 <= i < |slots| ==>
      && slots'[i].uuid == slots[i].uuid && slots'[i].generation == slots[i].generation
      && slots'[i].retired == slots[i].retired && slots'[i].entity.Some? == slots[i].entity.Some?
      && (slots[i].entity.Some? ==> slots'[i].entity.value.parent == slots[i].entity.value.parent)
    ensures Parents(slots') == Parents(slots)
  {
    forall i | 0 <= i < |slots|
      ensures ParentIndex(slots', i) == ParentIndex(slots, i)
    {
      if slots[i].entity.Some? && slots[i].entity.value.parent.Some? {
        FindSame(slots, slots', slots[i].entity.value.parent.value, 0);
      }
    }
    assert forall i :: 0 <= i < |slots| ==> Parents(slots')[i] == Parents(slots)[i];
  }

  /** Identities are unique, so a reference to a live slot finds that slot. */
  lemma LinkFound(seed: u32, slots: seq<Slot>, i: nat, j: nat)
    requires |slots| <= SLOT_LIMIT && i < |slots| && j < |slots|
    requires forall k :: 0 <= k < |slots| ==> slots[k].uuid == Uuid(seed, k)
    requires ChildOf(slots[i], slots[j]) && Live(slots[j])
    ensures ParentIndex(slots, i) == j
  {
    var r := ParentIndex(slots, i);
    if r >= 0 {
      UuidInjective(seed, r, j);
    }
  }

  /** Children are exactly the slots whose parent index points here. */
  lemma ChildrenFound(seed: u32, slots: seq<Slot>, root: int, at: nat)
    requires SoundBut(seed, slots, root) && at < |slots| && Live(slots[at])
    ensures HasChildren(slots, at) <==> exists c :: 0 <= c < |slots| && ParentIndex(slots, c) == at
  {
    forall c | 0 <= c < |slots| && ChildOf(slots[c], slots[at])
      ensures ParentIndex(slots, c) == at
    {
      LinkFound(seed, slots, c, at);
    }
  }

  // Refreshing a subtree

  lemma {:induction false} DerivedFuel(slots: seq<Slot>, root: nat, i: nat, f: nat, g: nat)
    requires i < |slots| && slots[i].entity.Some? && Ends(Parents(slots), i, f) && f <= g
    ensures Derived(slots, root, i, f) == Derived(slots, root, i, g)
    decreases f
  {
    if i != root && ParentIndex(slots, i) >= 0 {
      DerivedFuel(slots, root, ParentIndex(slots, i), f - 1, g - 1);
    }
  }

  /** Derived transforms are proper, and uniform where there are children. */
  lemma {:induction false} DerivedSound(seed: u32, slots: seq<Slot>, root: nat, i: nat, f: nat)
    requires SoundBut(seed, slots, root) && i < |slots| && slots[i].entity.Some?
    requires Ends(Parents(slots), i, f) && Within(Parents(slots), root, i, f)
    ensures Proper(Derived(slots, root, i, f))
    ensures forall c :: 0 <= c < |slots| && ParentIndex(slots, c) == i ==> Uniform(Derived(slots, root, i, f).scale)
    decreases f
  {
    assert SlotSound(seed, slots[i], i);
    if i != root {
      var up := ParentIndex(slots, i);
      DerivedSound(seed, slots, root, up, f - 1);
      DerivedProper(Derived(slots, root, up, f - 1), EntityAt(slots, i).local);
      forall c | 0 <= c < |slots| && ParentIndex(slots, c) == i
        ensures Uniform(Derived(slots, root, i, f).scale)
      {
        assert ScaleSound(slots, c);
      }
    } else {
      forall c | 0 <= c < |slots| && ParentIndex(slots, c) == i
        ensures Uniform(Derived(slots, root, i, f).scale)
      {
        assert ScaleSound(slots, c);
      }
    }
  }

  lemma RefreshKeeps(slots: seq<Slot>, root: nat, revision: u64)
    ensures
      var r := Refresh(slots, root, revision);
      && Parents(r) == Parents(slots)
      && forall i :: 0 <= i < |slots| ==>
           && r[i] == Refreshed(slots, root, revision, i)
           && r[i].entity.Some? == slots[i].entity.Some?
           && (r[i].entity.Some? ==>
                 r[i].entity.value.(transform := EntityAt(slots, i).transform, revision := EntityAt(slots, i).revision)
                 == EntityAt(slots, i))
  {
    ParentsSame(slots, Refresh(slots, root, revision));
  }

  lemma {:induction false} WithinStep(slots: seq<Slot>, root: nat, i: nat)
    requires Acyclic(Parents(slots)) && i < |slots| && root < |slots|
    ensures
      var par, up := Parents(slots), ParentIndex(slots, i);
      && (Within(par, root, i, |par|) <==> i == root || Within(par, root, up, |par|))
      && !Within(par, i, up, |par|)
  {
    var par, n := Parents(slots), |slots|;
    AncestorsStep(par, i);
    WithinIsAncestry(par, root, i, n);
    WithinIsAncestry(par, root, par[i], n);
    WithinIsAncestry(par, i, par[i], n);
  }

  /** The refreshed edge above `i` is coherent. */
  lemma RefreshCoherent(seed: u32, slots: seq<Slot>, root: nat, revision: u64, i: nat)
    requires SoundBut(seed, slots, root) && root < |slots| && i < |slots| && ParentIndex(slots, i) >= 0
    ensures
      var r, up := Refresh(slots, root, revision), ParentIndex(slots, i);
      EntityAt(r, i).transform == Compose(EntityAt(r, up).transform, EntityAt(r, i).local)
  {
    hide Compose, Proper, Uniform, SlotSound, LinkSound, ScaleSound, Acyclic;
    var par, up, n := Parents(slots), ParentIndex(slots, i), |slots|;
    EdgeTouched(slots, root, revision, i);
    WithinStep(slots, root, i);
    if i != root && Within(par, root, i, n) {
      EdgeDerived(slots, root, i);
    } else {
      assert up != root || i == root;
      assert Coherent(slots, i);
    }
  }

  /** What refreshing does to the two ends of an edge. */
  lemma {:induction false} EdgeTouched(slots: seq<Slot>, root: nat, revision: u64, i: nat)
    requires i < |slots| && ParentIndex(slots, i) >= 0
    ensures
      var (r, up, par, n) := (Refresh(slots, root, revision), ParentIndex(slots, i), Parents(slots), |slots|);
      && EntityAt(r, i).local == EntityAt(slots, i).local
      && EntityAt(r, i).transform == (if Within(par, root, i, n) then Derived(slots, root, i, n) else EntityAt(slots, i).transform)
      && EntityAt(r, up).transform == (if Within(par, root, up, n) then Derived(slots, root, up, n) else EntityAt(slots, up).transform)
  {
    hide Derived;
  }

  lemma EdgeDerived(slots: seq<Slot>, root: nat, i: nat)
    requires Acyclic(Parents(slots)) && i < |slots| && i != root && ParentIndex(slots, i) >= 0
    ensures
      var (up, n) := (ParentIndex(slots, i), |slots|);
      Derived(slots, root, i, n) == Compose(Derived(slots, root, up, n), EntityAt(slots, i).local)
  {
    hide Compose;
    assert Ends(Parents(slots), i, |slots|);
    DerivedFuel(slots, root, ParentIndex(slots, i), |slots| - 1, |slots|);
  }

  /** Refreshing the subtree of `root` repairs the one place where the caches were stale. */
  lemma RefreshSound(seed: u32, slots: seq<Slot>, root: nat, revision: u64)
    requires SoundBut(seed, slots, root) && root < |slots| && slots[root].entity.Some?
    ensures Sound(seed, Refresh(slots, root, revision))
  {
    var r, par, n := Refresh(slots, root, revision), Parents(slots), |slots|;
    RefreshKeeps(slots, root, revision);
    forall i | 0 <= i < n
      ensures SlotSound(seed, r[i], i)
      ensures slots[i].entity.Some? && Within(par, root, i, n) ==>
        forall c :: 0 <= c < n && ParentIndex(slots, c) == i ==> Uniform(EntityAt(r, i).transform.scale)
    {
      assert SlotSound(seed, slots[i], i);
      if slots[i].entity.Some? && Within(par, root, i, n) {
        DerivedSound(seed, slots, root, i, n);
      }
    }
    forall i | 0 <= i < n
      ensures LinkSound(r, i) && ScaleSound(r, i) && Coherent(r, i)
    {
      assert Parents(r)[i] == Parents(slots)[i];
      assert LinkSound(slots, i) && ScaleSound(slots, i);
      var up := ParentIndex(slots, i);
      if up >= 0 {
        assert Parents(r)[up] == Parents(slots)[up];
        RefreshCoherent(seed, slots, root, revision, i);
      }
    }
  }

  /** Composition of local transforms from the root of the tree of `i` down to `i`. */
  function Composed(slots: seq<Slot>, i: nat, fuel: nat): Transform
    requires i < |slots| && slots[i].entity.Some?
    decreases fuel
  {
    var up := ParentIndex(slots, i);
    if up < 0 || fuel == 0 then EntityAt(slots, i).transform
    else Compose(Composed(slots, up, fuel - 1), EntityAt(slots, i).local)
  }

  /** Every cached world transform is the composition of local transforms along the whole ancestor chain. */
  lemma {:induction false} CacheIsComposition(seed: u32, slots: seq<Slot>, i: nat, f: nat)
    requires Sound(seed, slots) && i < |slots| && slots[i].entity.Some? && Ends(Parents(slots), i, f)
    ensures EntityAt(slots, i).transform == Composed(slots, i, f)
    decreases f
  {
    hide Compose, Proper, Uniform;
    assert Coherent(slots, i);
    if ParentIndex(slots, i) >= 0 {
      CacheIsComposition(seed, slots, ParentIndex(slots, i), f - 1);
    }
  }

  /** Where a point given in the frame of `i` ends up when one local transform after the other is applied on the way up. */
  function Carried(slots: seq<Slot>, i: nat, v: Vec3, fuel: nat): Vec3
    requires i < |slots| && slots[i].entity.Some?
    decreases fuel
  {
    var up := ParentIndex(slots, i);
    if up < 0 || fuel == 0 then PointOf(EntityAt(slots, i).transform, v)
    else Carried(slots, up, PointOf(EntityAt(slots, i).local, v), fuel - 1)
  }

  /** The cached world transform takes every point where the local transforms of the whole ancestor chain take it. */
  lemma {:induction false} CacheMovesPoints(seed: u32, slots: seq<Slot>, i: nat, v: Vec3, f: nat)
    requires Sound(seed, slots) && i < |slots| && slots[i].entity.Some? && Ends(Parents(slots), i, f)
    ensures PointOf(EntityAt(slots, i).transform, v) == Carried(slots, i, v, f)
    decreases f
  {
    hide Compose, Proper, Uniform, PointOf;
    var up := ParentIndex(slots, i);
    if up >= 0 {
      assert Coherent(slots, i) && ScaleSound(slots, i) && SlotSound(seed, slots[i], i) && SlotSound(seed, slots[up], up);
      ComposeMovesPoints(EntityAt(slots, up).transform, EntityAt(slots, i).local, v);
      CacheMovesPoints(seed, slots, up, PointOf(EntityAt(slots, i).local, v), f - 1);
    }
  }

  /** The cycle test of `reparent` rejects exactly the moves that would break the forest:
      those under the slot's own subtree. */
  lemma {:induction false} CycleTestExact(seed: u32, slots: seq<Slot>, at: nat, up: nat)
    requires Sound(seed, slots) && at < |slots| && up < |slots|
    ensures Within(Parents(slots), at, up, |slots|) <==> at in Ancestors(Parents(slots), up)
    ensures Within(Parents(slots), at, up, |slots|) <==> !Acyclic(Parents(slots)[at := up])
  {
    WithinIsAncestry(Parents(slots), at, up, |slots|);
    MoveAcyclic(Parents(slots), at, up);
  }
}
