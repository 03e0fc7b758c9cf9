/** Authored world state: slots with generations, each holding at most one entity. */
module Worlds {
  import opened Prelude
  import opened Texts
  import opened Geometry

  datatype ParentIdentity = ParentIdentity(uuid: Text, generation: u64)

  /** `transform` is the cached world transform; `local` is authored only while there is a parent. */
  datatype Entity = Entity(prefab: Text, revision: u64, transform: Transform,
                           parent: Option<ParentIdentity>, local: Transform, tags: seq<Text>)

  datatype Slot = Slot(uuid: Text, generation: u64, retired: bool, entity: Option<Entity>)

  datatype Snapshot = Snapshot(version: u32, worldId: Text, seed: u32, maxSlots: u32,
                               revision: u64, slots: seq<Slot>)

  const UNIT_CUBE := Ascii("builtin.unit_cube")
  const SLOT_LIMIT := 1024

  predicate Alphanumeric(c: byte) {
    0x61 <= c <= 0x7A || 0x41 <= c <= 0x5A || 0x30 <= c <= 0x39
  }

  /** The bounded ASCII identifiers; the punctuation is `-`, `.`, `:` and `_`. */
  predicate Identifier(t: Text, maximum: nat) {
    && 0 < |t| <= maximum
    && Alphanumeric(t[0])
    && forall i :: 0 <= i < |t| ==> Alphanumeric(t[i]) || t[i] in [0x2D, 0x2E, 0x3A, 0x5F]
  }

  predicate ValidWorld(worldId: Text, maxSlots: u32) {
    Identifier(worldId, 128) && 1 <= maxSlots <= SLOT_LIMIT
  }

  function Fresh(worldId: Text, seed: u32, maxSlots: u32): Snapshot {
    Snapshot(1, worldId, seed, maxSlots, 0, [])
  }

  /** Single-owner authoring storage. */
  class World {
    var state: Snapshot

    constructor (worldId: Text, seed: u32, maxSlots: u32)
      requires ValidWorld(worldId, maxSlots)
      ensures state == Fresh(worldId, seed, maxSlots)
    {
      state := Fresh(worldId, seed, maxSlots);
    }
  }

  /** The UUID the allocator gives to the slot at `index`. */
  function Uuid(seed: u32, index: nat): (t: Text)
    ensures |t| == 36
  {
    Hex(seed, 8) + Ascii("-0000-4000-8000-") + Hex(index + 1, 12)
  }

  /** Slot UUIDs ascend in text order with the slot index, so they are distinct. */
  lemma UuidAscends(seed: u32, i: nat, j: nat)
    requires i < j < SLOT_LIMIT
    ensures Less(Uuid(seed, i), Uuid(seed, j))
  {
    assert Pow16(3) == 16 * Pow16(2) == 16 * 16 * Pow16(1) == 16 * 16 * 16 * Pow16(0) == 4096;
    PowGrows(3, 12);
    HexMonotone(i + 1, j + 1, 12);
    LessAfter(Hex(seed, 8) + Ascii("-0000-4000-8000-"), Hex(i + 1, 12), Hex(j + 1, 12));
  }

  lemma {:induction false} PowGrows(m: nat, n: nat)
    requires m <= n
    ensures Pow16(m) <= Pow16(n)
    decreases n
  {
    if m < n {
      PowGrows(m, n - 1);
    }
  }

  lemma UuidInjective(seed: u32, i: nat, j: nat)
    requires i < SLOT_LIMIT && j < SLOT_LIMIT && Uuid(seed, i) == Uuid(seed, j)
    ensures i == j
  {
    LessIrreflexive(Uuid(seed, i));
    if i < j {
      UuidAscends(seed, i, j);
    } else if j < i {
      UuidAscends(seed, j, i);
    }
  }

  predicate Live(slot: Slot) {
    slot.entity.Some? && !slot.retired
  }

  predicate Free(slot: Slot) {
    slot.entity.None? && !slot.retired
  }

  /** `child` names `parent` by UUID and generation. */
  predicate ChildOf(child: Slot, parent: Slot) {
    && child.entity.Some?
    && child.entity.value.parent == Some(ParentIdentity(parent.uuid, parent.generation))
  }

  predicate HasChildren(slots: seq<Slot>, parent: nat)
    requires parent < |slots|
  {
    exists c :: 0 <= c < |slots| && ChildOf(slots[c], slots[parent])
  }

  /** The first live slot at or after `from` with this identity, or -1. */
  function FindIdentity(slots: seq<Slot>, id: ParentIdentity, from: nat): (r: int)
    requires from <= |slots|
    ensures r == -1 || (from <= r < |slots| && Live(slots[r]) && slots[r].uuid == id.uuid && slots[r].generation == id.generation)
    ensures r == -1 ==> forall k :: from <= k < |slots| && slots[k].uuid == id.uuid && slots[k].generation == id.generation ==> !Live(slots[k])
    decreases |slots| - from
  {
    if from == |slots| then -1
    else if Live(slots[from]) && slots[from].uuid == id.uuid && slots[from].generation == id.generation then from
    else FindIdentity(slots, id, from + 1)
  }

  function ParentIndex(slots: seq<Slot>, i: nat): (r: int)
    requires i < |slots|
    ensures -1 <= r < |slots|
    ensures r >= 0 ==> Live(slots[r]) && ChildOf(slots[i], slots[r])
  {
    if slots[i].entity.Some? && slots[i].entity.value.parent.Some?
    then FindIdentity(slots, slots[i].entity.value.parent.value, 0)
    else -1
  }

  /** The parent forest of the slots. */
  function Parents(slots: seq<Slot>): (par: seq<int>)
    ensures |par| == |slots|
    ensures forall i :: 0 <= i < |slots| ==> par[i] == ParentIndex(slots, i)
  {
    seq(|slots|, i requires 0 <= i < |slots| => ParentIndex(slots, i))
  }

  /** World state is versioned by the features it uses: 3 with tags, else 2 with parents, else 1. */
  function FormatVersion(slots: seq<Slot>): (v: u32)
    ensures 1 <= v <= 3
  {
    if exists i :: 0 <= i < |slots| && slots[i].entity.Some? && slots[i].entity.value.tags != [] then 3
    else if exists i :: 0 <= i < |slots| && slots[i].entity.Some? && slots[i].entity.value.parent.Some? then 2
    else 1
  }
}
