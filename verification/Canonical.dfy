/** The canonical encoding of a snapshot, written in loops, and its injectivity on committed worlds. */
module Canonical {
  import opened Prelude
  import opened Texts
  import opened Geometry
  import opened Worlds
  import opened Commands
  import opened Batch
  import opened Hierarchy
  import opened Lifetimes

  function Number(pl: Platform, r: real): Bytes {
    LE(pl.bits(r), 8)
  }

  function VectorBytes(pl: Platform, v: Vec3): Bytes {
    Number(pl, v.x) + Number(pl, v.y) + Number(pl, v.z)
  }

  function TransformBytes(pl: Platform, t: Transform): Bytes {
    VectorBytes(pl, t.position)
    + (Number(pl, t.rotation.x) + Number(pl, t.rotation.y) + Number(pl, t.rotation.z) + Number(pl, t.rotation.w))
    + VectorBytes(pl, t.scale)
  }

  function TagsBytes(tags: seq<Text>, n: nat): Bytes
    requires n <= |tags|
  {
    if n == 0 then [] else TagsBytes(tags, n - 1) + Text32(tags[n - 1])
  }

  function Flag(b: bool): Bytes {
    if b then [1] else [0]
  }

  function ParentBytes(pl: Platform, e: Entity): Bytes {
    match e.parent
    case None => Flag(false)
    case Some(id) => Flag(true) + (id.uuid + (LE(id.generation, 8) + TransformBytes(pl, e.local)))
  }

  function HierarchyBytes(pl: Platform, version: u32, e: Entity): Bytes {
    if version >= 2 then ParentBytes(pl, e) else []
  }

  function LabelBytes(version: u32, e: Entity): Bytes {
    if version == 3 then LE(|e.tags|, 4) + TagsBytes(e.tags, |e.tags|) else []
  }

  function EntityBytes(pl: Platform, version: u32, e: Entity): Bytes {
    Text32(e.prefab) + LE(e.revision, 8) + TransformBytes(pl, e.transform)
    + HierarchyBytes(pl, version, e) + LabelBytes(version, e)
  }

  function ContentBytes(pl: Platform, version: u32, slot: Slot): Bytes {
    if slot.entity.Some? then EntityBytes(pl, version, slot.entity.value) else []
  }

  function SlotBytes(pl: Platform, version: u32, slot: Slot): Bytes {
    slot.uuid + LE(slot.generation, 8) + Flag(slot.retired) + Flag(slot.entity.Some?) + ContentBytes(pl, version, slot)
  }

  function SlotsBytes(pl: Platform, version: u32, slots: seq<Slot>, n: nat): Bytes
    requires n <= |slots|
  {
    if n == 0 then [] else SlotsBytes(pl, version, slots, n - 1) + SlotBytes(pl, version, slots[n - 1])
  }

  function Magic(version: u32): Bytes {
    Ascii("OWOBJ00") + (if version == 2 then Ascii("2") else if version == 3 then Ascii("3") else Ascii("1"))
  }

  function HeaderBytes(s: Snapshot): Bytes {
    Magic(s.version) + Text32(s.worldId) + LE(s.seed, 4) + LE(s.maxSlots, 4) + LE(s.revision, 8) + LE(|s.slots|, 4)
  }

  function CanonicalBytes(pl: Platform, s: Snapshot): Bytes {
    HeaderBytes(s) + SlotsBytes(pl, s.version, s.slots, |s.slots|)
  }

  /** Writes the encoding slot by slot, tag by tag. */
  method Write(pl: Platform, s: Snapshot) returns (bytes: Bytes)
    ensures bytes == CanonicalBytes(pl, s)
  {
    bytes := Ascii("OWOBJ001");
    if s.version == 2 {
      bytes := bytes[7 := 0x32];
    }
    if s.version == 3 {
      bytes := bytes[7 := 0x33];
    }
    assert bytes == Magic(s.version);
    hide LE, Text32, Magic, SlotBytes;
    bytes := bytes + Text32(s.worldId) + LE(s.seed, 4) + LE(s.maxSlots, 4) + LE(s.revision, 8) + LE(|s.slots|, 4);
    var n := 0;
    assert bytes == HeaderBytes(s) + [];
    while n < |s.slots|
      invariant n <= |s.slots|
      invariant bytes == HeaderBytes(s) + SlotsBytes(pl, s.version, s.slots, n)
    {
      Flat2(HeaderBytes(s), SlotsBytes(pl, s.version, s.slots, n), SlotBytes(pl, s.version, s.slots[n]));
      bytes := WriteSlot(pl, s.version, s.slots[n], bytes);
      n := n + 1;
    }
  }

  method WriteSlot(pl: Platform, version: u32, slot: Slot, before: Bytes) returns (bytes: Bytes)
    ensures bytes == before + SlotBytes(pl, version, slot)
  {
    hide LE, EntityBytes, Flag;
    bytes := before + slot.uuid;
    bytes := bytes + LE(slot.generation, 8);
    bytes := bytes + Flag(slot.retired);
    bytes := bytes + Flag(slot.entity.Some?);
    if slot.entity.Some? {
      bytes := WriteEntity(pl, version, slot.entity.value, bytes);
    }
    Flat5(before, slot.uuid, LE(slot.generation, 8), Flag(slot.retired), Flag(slot.entity.Some?), ContentBytes(pl, version, slot));
    Flat4(slot.uuid, LE(slot.generation, 8), Flag(slot.retired), Flag(slot.entity.Some?), ContentBytes(pl, version, slot));
    if slot.entity.None? {
      assert bytes + [] == bytes;
    }
  }

  method WriteEntity(pl: Platform, version: u32, e: Entity, before: Bytes) returns (bytes: Bytes)
    ensures bytes == before + EntityBytes(pl, version, e)
  {
    hide LE, Text32, TransformBytes, Flag, TagsBytes;
    bytes := before + Text32(e.prefab);
    bytes := bytes + LE(e.revision, 8);
    bytes := bytes + TransformBytes(pl, e.transform);
    ghost var start := bytes;
    if version >= 2 {
      bytes := WriteParent(pl, e, bytes);
    }
    assert bytes == start + HierarchyBytes(pl, version, e);
    start := bytes;
    if version == 3 {
      bytes := WriteTags(e.tags, bytes);
    }
    assert bytes == start + LabelBytes(version, e);
    Flat5(before, Text32(e.prefab), LE(e.revision, 8), TransformBytes(pl, e.transform), HierarchyBytes(pl, version, e), LabelBytes(version, e));
    Flat4(Text32(e.prefab), LE(e.revision, 8), TransformBytes(pl, e.transform), HierarchyBytes(pl, version, e), LabelBytes(version, e));
  }

  method WriteParent(pl: Platform, e: Entity, before: Bytes) returns (bytes: Bytes)
    ensures bytes == before + ParentBytes(pl, e)
  {
    hide LE, TransformBytes, Flag;
    bytes := before + Flag(e.parent.Some?);
    if e.parent.Some? {
      var id := e.parent.value;
      bytes := bytes + id.uuid;
      bytes := bytes + LE(id.generation, 8);
      bytes := bytes + TransformBytes(pl, e.local);
      Flat4(before, Flag(true), id.uuid, LE(id.generation, 8), TransformBytes(pl, e.local));
    }
  }

  method WriteTags(tags: seq<Text>, before: Bytes) returns (bytes: Bytes)
    ensures bytes == before + (LE(|tags|, 4) + TagsBytes(tags, |tags|))
  {
    hide LE, Text32;
    bytes := before + LE(|tags|, 4);
    ghost var start := bytes;
    var n := 0;
    while n < |tags|
      invariant n <= |tags|
      invariant bytes == start + TagsBytes(tags, n)
    {
      Flat2(start, TagsBytes(tags, n), Text32(tags[n]));
      bytes := bytes + Text32(tags[n]);
      n := n + 1;
    }
    Flat2(before, LE(|tags|, 4), TagsBytes(tags, |tags|));
  }

  // Injectivity: equal encodings followed by anything are encodings of equal values.

  predicate Exact(pl: Platform, e: Entity) {
    pl.Doubles(e.transform) && pl.Doubles(e.local)
  }

  /** Every stored number is a binary64 value, as the types of the source make it. */
  predicate AllDoubles(pl: Platform, s: Snapshot) {
    forall i :: 0 <= i < |s.slots| && s.slots[i].entity.Some? ==> Exact(pl, s.slots[i].entity.value)
  }

  /** What the format version leaves out is forced. */
  predicate EntityFits(pl: Platform, version: u32, e: Entity) {
    && Exact(pl, e) && |e.prefab| < U32_LIMIT && TagsFit(e.tags)
    && version <= 3 && (version < 3 ==> e.tags == []) && (version < 2 ==> e.parent.None?)
    && (e.parent.None? ==> e.local == IDENTITY) && (e.parent.Some? ==> |e.parent.value.uuid| == 36)
  }

  predicate SlotFits(pl: Platform, version: u32, slot: Slot) {
    |slot.uuid| == 36 && (slot.entity.Some? ==> EntityFits(pl, version, slot.entity.value))
  }

  lemma CancelNumber(pl: Platform, a: real, b: real, x: Bytes, y: Bytes)
    requires pl.Double(a) && pl.Double(b) && Number(pl, a) + x == Number(pl, b) + y
    ensures a == b && x == y
  {
    Widths();
    CancelLE(pl.bits(a), pl.bits(b), 8, x, y);
  }

  lemma CancelVector(pl: Platform, a: Vec3, b: Vec3, x: Bytes, y: Bytes)
    requires pl.Double(a.x) && pl.Double(a.y) && pl.Double(a.z) && pl.Double(b.x) && pl.Double(b.y) && pl.Double(b.z)
    requires VectorBytes(pl, a) + x == VectorBytes(pl, b) + y
    ensures a == b && x == y
  {
    var (a2, b2) := (Number(pl, a.z) + x, Number(pl, b.z) + y);
    var (a1, b1) := (Number(pl, a.y) + a2, Number(pl, b.y) + b2);
    assert VectorBytes(pl, a) + x == Number(pl, a.x) + a1;
    assert VectorBytes(pl, b) + y == Number(pl, b.x) + b1;
    CancelNumber(pl, a.x, b.x, a1, b1);
    CancelNumber(pl, a.y, b.y, a2, b2);
    CancelNumber(pl, a.z, b.z, x, y);
  }

  lemma CancelTransform(pl: Platform, a: Transform, b: Transform, x: Bytes, y: Bytes)
    requires pl.Doubles(a) && pl.Doubles(b) && TransformBytes(pl, a) + x == TransformBytes(pl, b) + y
    ensures a == b && x == y
  {
    var (q, r) := (a.rotation, b.rotation);
    var (a4, b4) := (VectorBytes(pl, a.scale) + x, VectorBytes(pl, b.scale) + y);
    var (a3, b3) := (Number(pl, q.w) + a4, Number(pl, r.w) + b4);
    var (a2, b2) := (Number(pl, q.z) + a3, Number(pl, r.z) + b3);
    var (a1, b1) := (Number(pl, q.y) + a2, Number(pl, r.y) + b2);
    var (a0, b0) := (Number(pl, q.x) + a1, Number(pl, r.x) + b1);
    assert TransformBytes(pl, a) + x == VectorBytes(pl, a.position) + a0;
    assert TransformBytes(pl, b) + y == VectorBytes(pl, b.position) + b0;
    CancelVector(pl, a.position, b.position, a0, b0);
    CancelNumber(pl, q.x, r.x, a1, b1);
    CancelNumber(pl, q.y, r.y, a2, b2);
    CancelNumber(pl, q.z, r.z, a3, b3);
    CancelNumber(pl, q.w, r.w, a4, b4);
    CancelVector(pl, a.scale, b.scale, x, y);
  }

  lemma {:induction false} CancelTags(a: seq<Text>, b: seq<Text>, n: nat, x: Bytes, y: Bytes)
    requires TagsFit(a) && TagsFit(b) && n <= |a| && n <= |b|
    requires TagsBytes(a, n) + x == TagsBytes(b, n) + y
    ensures a[..n] == b[..n] && x == y
    decreases n
  {
    if n > 0 {
      var (a1, b1) := (Text32(a[n - 1]) + x, Text32(b[n - 1]) + y);
      Flat2(TagsBytes(a, n - 1), Text32(a[n - 1]), x);
      Flat2(TagsBytes(b, n - 1), Text32(b[n - 1]), y);
      CancelTags(a, b, n - 1, a1, b1);
      CancelText32(a[n - 1], b[n - 1], x, y);
      assert a[..n] == a[..n - 1] + [a[n - 1]] && b[..n] == b[..n - 1] + [b[n - 1]];
    } else {
      CancelFixed([], [], x, y);
    }
  }

  lemma CancelParent(pl: Platform, a: Entity, b: Entity, x: Bytes, y: Bytes)
    requires Exact(pl, a) && Exact(pl, b)
    requires (a.parent.Some? ==> |a.parent.value.uuid| == 36) && (b.parent.Some? ==> |b.parent.value.uuid| == 36)
    requires ParentBytes(pl, a) + x == ParentBytes(pl, b) + y
    ensures a.parent == b.parent && (a.parent.Some? ==> a.local == b.local) && x == y
  {
    assert (ParentBytes(pl, a) + x)[0] == if a.parent.Some? then 1 else 0;
    assert (ParentBytes(pl, b) + y)[0] == if b.parent.Some? then 1 else 0;
    if a.parent.Some? {
      var (p, q) := (a.parent.value, b.parent.value);
      var (a2, b2) := (TransformBytes(pl, a.local) + x, TransformBytes(pl, b.local) + y);
      var (a1, b1) := (LE(p.generation, 8) + a2, LE(q.generation, 8) + b2);
      assert ParentBytes(pl, a) + x == Flag(true) + (p.uuid + a1);
      assert ParentBytes(pl, b) + y == Flag(true) + (q.uuid + b1);
      CancelFixed(Flag(true), Flag(true), p.uuid + a1, q.uuid + b1);
      CancelFixed(p.uuid, q.uuid, a1, b1);
      Widths();
      CancelLE(p.generation, q.generation, 8, a2, b2);
      CancelTransform(pl, a.local, b.local, x, y);
    } else {
      CancelFixed(Flag(false), Flag(false), x, y);
    }
  }

  lemma CancelHierarchy(pl: Platform, version: u32, a: Entity, b: Entity, x: Bytes, y: Bytes)
    requires EntityFits(pl, version, a) && EntityFits(pl, version, b)
    requires HierarchyBytes(pl, version, a) + x == HierarchyBytes(pl, version, b) + y
    ensures a.parent == b.parent && a.local == b.local && x == y
  {
    hide ParentBytes;
    if version >= 2 {
      CancelParent(pl, a, b, x, y);
    } else {
      CancelFixed([], [], x, y);
    }
  }

  lemma CancelLabels(pl: Platform, version: u32, a: Entity, b: Entity, x: Bytes, y: Bytes)
    requires EntityFits(pl, version, a) && EntityFits(pl, version, b)
    requires LabelBytes(version, a) + x == LabelBytes(version, b) + y
    ensures a.tags == b.tags && x == y
  {
    hide LE, TagsBytes;
    if version == 3 {
      Widths();
      Flat2(LE(|a.tags|, 4), TagsBytes(a.tags, |a.tags|), x);
      Flat2(LE(|b.tags|, 4), TagsBytes(b.tags, |b.tags|), y);
      CancelLE(|a.tags|, |b.tags|, 4, TagsBytes(a.tags, |a.tags|) + x, TagsBytes(b.tags, |b.tags|) + y);
      CancelTags(a.tags, b.tags, |a.tags|, x, y);
      assert a.tags == a.tags[..|a.tags|] && b.tags == b.tags[..|b.tags|];
    } else {
      CancelFixed([], [], x, y);
    }
  }

  lemma CancelEntity(pl: Platform, version: u32, a: Entity, b: Entity, x: Bytes, y: Bytes)
    requires EntityFits(pl, version, a) && EntityFits(pl, version, b)
    requires EntityBytes(pl, version, a) + x == EntityBytes(pl, version, b) + y
    ensures a == b && x == y
  {
    hide TransformBytes, HierarchyBytes, LabelBytes, LE, Text32;
    Widths();
    var (a4, b4) := (LabelBytes(version, a) + x, LabelBytes(version, b) + y);
    var (a3, b3) := (HierarchyBytes(pl, version, a) + a4, HierarchyBytes(pl, version, b) + b4);
    var (a2, b2) := (TransformBytes(pl, a.transform) + a3, TransformBytes(pl, b.transform) + b3);
    var (a1, b1) := (LE(a.revision, 8) + a2, LE(b.revision, 8) + b2);
    Flat5(Text32(a.prefab), LE(a.revision, 8), TransformBytes(pl, a.transform), HierarchyBytes(pl, version, a), LabelBytes(version, a), x);
    Flat5(Text32(b.prefab), LE(b.revision, 8), TransformBytes(pl, b.transform), HierarchyBytes(pl, version, b), LabelBytes(version, b), y);
    CancelText32(a.prefab, b.prefab, a1, b1);
    CancelLE(a.revision, b.revision, 8, a2, b2);
    CancelTransform(pl, a.transform, b.transform, a3, b3);
    CancelHierarchy(pl, version, a, b, a4, b4);
    CancelLabels(pl, version, a, b, x, y);
  }

  lemma CancelSlot(pl: Platform, version: u32, a: Slot, b: Slot, x: Bytes, y: Bytes)
    requires SlotFits(pl, version, a) && SlotFits(pl, version, b)
    requires SlotBytes(pl, version, a) + x == SlotBytes(pl, version, b) + y
    ensures a == b && x == y
  {
    hide EntityBytes, EntityFits, LE;
    Widths();
    var (a3, b3) := (ContentBytes(pl, version, a) + x, ContentBytes(pl, version, b) + y);
    var (a2, b2) := (Flag(a.entity.Some?) + a3, Flag(b.entity.Some?) + b3);
    var (a1, b1) := (Flag(a.retired) + a2, Flag(b.retired) + b2);
    var (a0, b0) := (LE(a.generation, 8) + a1, LE(b.generation, 8) + b1);
    Flat5(a.uuid, LE(a.generation, 8), Flag(a.retired), Flag(a.entity.Some?), ContentBytes(pl, version, a), x);
    Flat5(b.uuid, LE(b.generation, 8), Flag(b.retired), Flag(b.entity.Some?), ContentBytes(pl, version, b), y);
    CancelFixed(a.uuid, b.uuid, a0, b0);
    CancelLE(a.generation, b.generation, 8, a1, b1);
    CancelFixed(Flag(a.retired), Flag(b.retired), a2, b2);
    CancelFixed(Flag(a.entity.Some?), Flag(b.entity.Some?), a3, b3);
    if a.entity.Some? {
      CancelEntity(pl, version, a.entity.value, b.entity.value, x, y);
    } else {
      CancelFixed([], [], x, y);
    }
  }

  lemma {:induction false} CancelSlots(pl: Platform, version: u32, a: seq<Slot>, b: seq<Slot>, n: nat, x: Bytes, y: Bytes)
    requires n <= |a| && n <= |b|
    requires forall i :: 0 <= i < n ==> SlotFits(pl, version, a[i]) && SlotFits(pl, version, b[i])
    requires SlotsBytes(pl, version, a, n) + x == SlotsBytes(pl, version, b, n) + y
    ensures a[..n] == b[..n] && x == y
    decreases n
  {
    hide SlotBytes, SlotFits;
    if n > 0 {
      var (a1, b1) := (SlotBytes(pl, version, a[n - 1]) + x, SlotBytes(pl, version, b[n - 1]) + y);
      Flat2(SlotsBytes(pl, version, a, n - 1), SlotBytes(pl, version, a[n - 1]), x);
      Flat2(SlotsBytes(pl, version, b, n - 1), SlotBytes(pl, version, b[n - 1]), y);
      CancelSlots(pl, version, a, b, n - 1, a1, b1);
      CancelSlot(pl, version, a[n - 1], b[n - 1], x, y);
      assert a[..n] == a[..n - 1] + [a[n - 1]] && b[..n] == b[..n - 1] + [b[n - 1]];
    } else {
      CancelFixed([], [], x, y);
    }
  }

  /** The shape every stored world has, however its numbers came about. */
  predicate EntityShaped(pl: Platform, e: Entity) {
    && Exact(pl, e) && |e.prefab| < U32_LIMIT && TagsFit(e.tags)
    && (e.parent.None? ==> e.local == IDENTITY) && (e.parent.Some? ==> |e.parent.value.uuid| == 36)
  }

  predicate SlotShaped(pl: Platform, slot: Slot) {
    |slot.uuid| == 36 && (slot.entity.Some? ==> EntityShaped(pl, slot.entity.value))
  }

  predicate Representable(pl: Platform, s: Snapshot) {
    && ValidWorld(s.worldId, s.maxSlots) && |s.slots| <= SLOT_LIMIT && s.version == FormatVersion(s.slots)
    && forall i :: 0 <= i < |s.slots| ==> SlotShaped(pl, s.slots[i])
  }

  /** What the computed format version leaves out is not there. */
  lemma VersionFits(pl: Platform, s: Snapshot, i: nat)
    requires Representable(pl, s) && i < |s.slots|
    ensures SlotFits(pl, s.version, s.slots[i])
  {
    assert SlotShaped(pl, s.slots[i]);
  }

  lemma CommittedRepresentable(pl: Platform, s: Snapshot)
    requires Committed(s) && AllDoubles(pl, s)
    ensures Representable(pl, s)
  {
    forall i | 0 <= i < |s.slots|
      ensures SlotShaped(pl, s.slots[i])
    {
      CommittedShaped(pl, s, i);
    }
    hide SlotShaped, AllDoubles, FormatVersion;
  }

  lemma CommittedShaped(pl: Platform, s: Snapshot, i: nat)
    requires Committed(s) && AllDoubles(pl, s) && i < |s.slots|
    ensures SlotShaped(pl, s.slots[i])
  {
    hide Proper, Sorted, FormatVersion;
    assert SlotSound(s.seed, s.slots[i], i) && LinkSound(s.slots, i);
    if s.slots[i].entity.Some? && s.slots[i].entity.value.parent.Some? {
      var up := ParentIndex(s.slots, i);
      assert SlotSound(s.seed, s.slots[up], up);
    }
  }

  lemma CancelMagic(v: u32, w: u32, x: Bytes, y: Bytes)
    requires 1 <= v <= 3 && 1 <= w <= 3 && Magic(v) + x == Magic(w) + y
    ensures v == w && x == y
  {
    CancelFixed(Magic(v), Magic(w), x, y);
    assert Magic(v)[7] == 0x30 + v && Magic(w)[7] == 0x30 + w;
  }

  lemma CancelHeader(a: Snapshot, b: Snapshot, x: Bytes, y: Bytes)
    requires ValidWorld(a.worldId, a.maxSlots) && ValidWorld(b.worldId, b.maxSlots)
    requires |a.slots| <= SLOT_LIMIT && |b.slots| <= SLOT_LIMIT && 1 <= a.version <= 3 && 1 <= b.version <= 3
    requires HeaderBytes(a) + x == HeaderBytes(b) + y
    ensures a.(slots := b.slots) == b && |a.slots| == |b.slots| && x == y
  {
    hide LE, Text32, Magic;
    Widths();
    var (a5, b5) := (LE(|a.slots|, 4) + x, LE(|b.slots|, 4) + y);
    var (a4, b4) := (LE(a.revision, 8) + a5, LE(b.revision, 8) + b5);
    var (a3, b3) := (LE(a.maxSlots, 4) + a4, LE(b.maxSlots, 4) + b4);
    var (a2, b2) := (LE(a.seed, 4) + a3, LE(b.seed, 4) + b3);
    var (a1, b1) := (Text32(a.worldId) + a2, Text32(b.worldId) + b2);
    Flat6(Magic(a.version), Text32(a.worldId), LE(a.seed, 4), LE(a.maxSlots, 4), LE(a.revision, 8), LE(|a.slots|, 4), x);
    Flat6(Magic(b.version), Text32(b.worldId), LE(b.seed, 4), LE(b.maxSlots, 4), LE(b.revision, 8), LE(|b.slots|, 4), y);
    CancelMagic(a.version, b.version, a1, b1);
    CancelText32(a.worldId, b.worldId, a2, b2);
    CancelLE(a.seed, b.seed, 4, a3, b3);
    CancelLE(a.maxSlots, b.maxSlots, 4, a4, b4);
    CancelLE(a.revision, b.revision, 8, a5, b5);
    CancelLE(|a.slots|, |b.slots|, 4, x, y);
  }

  /** The version is exactly that of the newest feature a world uses: tags, then parents. */
  lemma VersionExact(slots: seq<Slot>)
    ensures FormatVersion(slots) == 3 <==> exists i :: 0 <= i < |slots| && slots[i].entity.Some? && slots[i].entity.value.tags != []
    ensures FormatVersion(slots) == 1 <==>
      forall i :: 0 <= i < |slots| && slots[i].entity.Some? ==> slots[i].entity.value.tags == [] && slots[i].entity.value.parent.None?
  {
  }

  /** Worlds with equal canonical bytes are equal: whatever cached transforms they hold, and however these were rounded. */
  lemma CanonicalInjective(pl: Platform, a: Snapshot, b: Snapshot)
    requires Representable(pl, a) && Representable(pl, b)
    requires CanonicalBytes(pl, a) == CanonicalBytes(pl, b)
    ensures a == b
  {
    forall i | 0 <= i < |a.slots|
      ensures SlotFits(pl, a.version, a.slots[i])
    {
      VersionFits(pl, a, i);
    }
    forall i | 0 <= i < |b.slots|
      ensures SlotFits(pl, b.version, b.slots[i])
    {
      VersionFits(pl, b, i);
    }
    hide SlotFits, SlotShaped, SlotBytes, HeaderBytes, FormatVersion;
    var (x, y) := (SlotsBytes(pl, a.version, a.slots, |a.slots|), SlotsBytes(pl, b.version, b.slots, |b.slots|));
    CancelHeader(a, b, x, y);
    assert x + [] == x && y + [] == y;
    CancelSlots(pl, a.version, a.slots, b.slots, |a.slots|, [], []);
    assert a.slots == a.slots[..|a.slots|] && b.slots == b.slots[..|b.slots|];
  }

  /** In particular committed worlds are equal when their canonical bytes are. */
  lemma CommittedInjective(pl: Platform, a: Snapshot, b: Snapshot)
    requires Committed(a) && Committed(b) && AllDoubles(pl, a) && AllDoubles(pl, b)
    requires CanonicalBytes(pl, a) == CanonicalBytes(pl, b)
    ensures a == b
  {
    hide Committed, AllDoubles, Representable, CanonicalBytes;
    CommittedRepresentable(pl, a);
    CommittedRepresentable(pl, b);
    CanonicalInjective(pl, a, b);
  }
}
