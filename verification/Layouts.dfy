/** Where each field of the stored formats stands, by its offset. */
module Layouts {
  import opened Prelude
  import opened Texts
  import opened Geometry
  import opened Worlds
  import opened Commands
  import opened Canonical
  import opened Package
  import opened Manifests

  /** These octets stand there. */
  predicate Field(b: Bytes, at: nat, f: Bytes) {
    at + |f| <= |b| && b[at..at + |f|] == f
  }

  lemma Here(f: Bytes, rest: Bytes)
    ensures Field(f + rest, 0, f)
  {
  }

  lemma Later(a: Bytes, rest: Bytes, at: nat, f: Bytes)
    requires Field(rest, at, f)
    ensures Field(a + rest, |a| + at, f)
  {
    assert (a + rest)[|a| + at..|a| + at + |f|] == rest[at..at + |f|];
  }

  lemma Before(a: Bytes, rest: Bytes, at: nat, f: Bytes)
    requires Field(a, at, f)
    ensures Field(a + rest, at, f)
  {
    assert (a + rest)[at..at + |f|] == a[at..at + |f|];
  }

  /** The number at an octet of a little-endian field. */
  lemma {:induction false} OctetOf(v: nat, n: nat, i: nat)
    requires i < n
    ensures LE(v, n)[i] == v / Pow256(i) % 0x100
  {
    if i > 0 {
      OctetOf(v / 0x100, n - 1, i - 1);
      DivideTwice(v, i);
    }
  }

  lemma DivideTwice(v: nat, i: nat)
    requires i > 0
    ensures (v / 0x100) / Pow256(i - 1) == v / Pow256(i)
  {
    var (q, p) := (v / 0x100, Pow256(i - 1));
    PowPositive(i - 1);
    assert Pow256(i) == 0x100 * p;
    var (a, b) := (q / p, q % p);
    assert q == p * a + b;
    var c := v % 0x100;
    assert v == 0x100 * q + c;
    assert v == (0x100 * p) * a + (0x100 * b + c);
    Quotient(v, 0x100 * p, a, 0x100 * b + c);
  }

  lemma {:induction false} PowPositive(n: nat)
    ensures Pow256(n) >= 1
  {
    if n > 0 {
      PowPositive(n - 1);
    }
  }

  lemma Quotient(v: nat, d: nat, a: nat, r: nat)
    requires d > 0 && v == d * a + r && r < d
    ensures v / d == a
  {
    var k: int := a - v / d;
    assert v == d * (v / d) + v % d;
    assert d * k == d * a - d * (v / d);
    Multiple(d, k);
  }

  lemma Multiple(d: nat, k: int)
    ensures k >= 1 ==> d * k >= d
    ensures k <= -1 ==> d * k + d <= 0
  {
    if k >= 1 {
      assert d * k == d * (k - 1) + d;
    } else if k <= -1 {
      assert d * k == -(d * (-k - 1)) - d;
    }
  }

  /** The header of the canonical bytes. */
  lemma CanonicalHeader(pl: Platform, s: Snapshot)
    ensures
      var (b, n) := (CanonicalBytes(pl, s), |s.worldId|);
      && Field(b, 0, Ascii("OWOBJ00")) && Field(b, 8, LE(n, 4)) && Field(b, 12, s.worldId)
      && Field(b, 12 + n, LE(s.seed, 4)) && Field(b, 16 + n, LE(s.maxSlots, 4)) && Field(b, 20 + n, LE(s.revision, 8))
      && Field(b, 28 + n, LE(|s.slots|, 4))
  {
    hide LE, SlotsBytes;
    var (magic, seed, maxSlots, revision, count) := (Magic(s.version), LE(s.seed, 4), LE(s.maxSlots, 4), LE(s.revision, 8), LE(|s.slots|, 4));
    var slots := SlotsBytes(pl, s.version, s.slots, |s.slots|);
    Flat6(magic, Text32(s.worldId), seed, maxSlots, revision, count, slots);
    MagicFields(s.version);
    hide Magic;
    Before(magic, Text32(s.worldId) + (seed + (maxSlots + (revision + (count + slots)))), 0, Ascii("OWOBJ00"));
    Here(count, slots);
    Later(revision, count + slots, 0, count);
    Here(revision, count + slots);
    Chain3(maxSlots, revision + (count + slots), 0, revision, 8, count);
    Here(maxSlots, revision + (count + slots));
    var r1 := maxSlots + (revision + (count + slots));
    Chain4(seed, r1, maxSlots, revision, count);
    Here(seed, r1);
    var r2 := seed + r1;
    Chain5(Text32(s.worldId), r2, seed, maxSlots, revision, count);
    TextFields(s.worldId, r2);
    var r3 := Text32(s.worldId) + r2;
    ChainAll(magic, r3, s.worldId, seed, maxSlots, revision, count);
  }

  /** The fixed head of a slot. */
  lemma SlotHead(pl: Platform, version: u32, slot: Slot)
    requires |slot.uuid| == 36
    ensures
      var b := SlotBytes(pl, version, slot);
      && Field(b, 0, slot.uuid) && Field(b, 36, LE(slot.generation, 8))
      && Field(b, 44, [if slot.retired then 1 else 0]) && Field(b, 45, [if slot.entity.Some? then 1 else 0])
      && Field(b, 46, ContentBytes(pl, version, slot))
  {
    hide LE, ContentBytes;
    var b := SlotBytes(pl, version, slot);
    assert b[..36] == slot.uuid && b[36..44] == LE(slot.generation, 8) && b[46..] == ContentBytes(pl, version, slot);
  }

  /** The numbers of a transform: position, rotation with its scalar part last, scale. */
  lemma TransformFields(pl: Platform, t: Transform)
    ensures
      var (b, p, q, s) := (TransformBytes(pl, t), t.position, t.rotation, t.scale);
      && Field(b, 0, Number(pl, p.x)) && Field(b, 8, Number(pl, p.y)) && Field(b, 16, Number(pl, p.z))
      && Field(b, 24, Number(pl, q.x)) && Field(b, 32, Number(pl, q.y)) && Field(b, 40, Number(pl, q.z)) && Field(b, 48, Number(pl, q.w))
      && Field(b, 56, Number(pl, s.x)) && Field(b, 64, Number(pl, s.y)) && Field(b, 72, Number(pl, s.z))
  {
    NumberSize(pl, t.position, t.rotation, t.scale);
    hide Number, VectorBytes;
    var (position, scale) := (VectorBytes(pl, t.position), VectorBytes(pl, t.scale));
    var rotation := Number(pl, t.rotation.x) + Number(pl, t.rotation.y) + Number(pl, t.rotation.z) + Number(pl, t.rotation.w);
    VectorFields(pl, t.position, rotation + scale);
    VectorFields(pl, t.scale, []);
    assert scale + [] == scale;
    QuatFields(pl, t.rotation, scale);
    assert TransformBytes(pl, t) == position + (rotation + scale);
    Chain3(position, rotation + scale, 0, Number(pl, t.rotation.x), 8, Number(pl, t.rotation.y));
    Chain3(position, rotation + scale, 16, Number(pl, t.rotation.z), 24, Number(pl, t.rotation.w));
    Chain3(rotation, scale, 0, Number(pl, t.scale.x), 8, Number(pl, t.scale.y));
    Later(rotation, scale, 16, Number(pl, t.scale.z));
    Chain3(position, rotation + scale, 32, Number(pl, t.scale.x), 40, Number(pl, t.scale.y));
    Later(position, rotation + scale, 48, Number(pl, t.scale.z));
  }

  lemma NumberSize(pl: Platform, v: Vec3, q: Quat, u: Vec3)
    ensures |VectorBytes(pl, v)| == |VectorBytes(pl, u)| == 24
    ensures |Number(pl, q.x)| == |Number(pl, q.y)| == |Number(pl, q.z)| == |Number(pl, q.w)| == 8
    ensures |Number(pl, u.x)| == |Number(pl, u.y)| == |Number(pl, u.z)| == 8
  {
  }

  lemma VectorFields(pl: Platform, v: Vec3, rest: Bytes)
    ensures
      var b := VectorBytes(pl, v) + rest;
      Field(b, 0, Number(pl, v.x)) && Field(b, 8, Number(pl, v.y)) && Field(b, 16, Number(pl, v.z))
  {
    NumberSize(pl, v, Quat(0.0, 0.0, 0.0, 0.0), v);
    hide Number;
    var b := VectorBytes(pl, v) + rest;
    assert b[..8] == Number(pl, v.x) && b[8..16] == Number(pl, v.y) && b[16..24] == Number(pl, v.z);
  }

  lemma QuatFields(pl: Platform, q: Quat, rest: Bytes)
    ensures
      var b := Number(pl, q.x) + Number(pl, q.y) + Number(pl, q.z) + Number(pl, q.w) + rest;
      Field(b, 0, Number(pl, q.x)) && Field(b, 8, Number(pl, q.y)) && Field(b, 16, Number(pl, q.z)) && Field(b, 24, Number(pl, q.w))
  {
    NumberSize(pl, Vec3(0.0, 0.0, 0.0), q, Vec3(0.0, 0.0, 0.0));
    hide Number;
    var b := Number(pl, q.x) + Number(pl, q.y) + Number(pl, q.z) + Number(pl, q.w) + rest;
    assert b[..8] == Number(pl, q.x) && b[8..16] == Number(pl, q.y) && b[16..24] == Number(pl, q.z) && b[24..32] == Number(pl, q.w);
  }

  lemma MagicFields(version: u32)
    ensures |Magic(version)| == 8 && Field(Magic(version), 0, Ascii("OWOBJ00"))
  {
  }

  lemma {:induction false} TextFields(t: Text, rest: Bytes)
    ensures Field(Text32(t) + rest, 0, LE(|t|, 4)) && Field(Text32(t) + rest, 4, t) && |Text32(t)| == 4 + |t|
  {
    hide LE;
    var b := Text32(t) + rest;
    assert b[..4] == LE(|t|, 4) && b[4..4 + |t|] == t;
  }

  lemma Chain3(a: Bytes, rest: Bytes, i: nat, f: Bytes, j: nat, g: Bytes)
    requires Field(rest, i, f) && Field(rest, j, g)
    ensures Field(a + rest, |a| + i, f) && Field(a + rest, |a| + j, g)
  {
    Later(a, rest, i, f);
    Later(a, rest, j, g);
  }

  lemma Chain4(a: Bytes, rest: Bytes, f: Bytes, g: Bytes, h: Bytes)
    requires Field(rest, 0, f) && Field(rest, 4, g) && Field(rest, 12, h)
    ensures Field(a + rest, |a|, f) && Field(a + rest, |a| + 4, g) && Field(a + rest, |a| + 12, h)
  {
    Chain3(a, rest, 0, f, 4, g);
    Later(a, rest, 12, h);
  }

  lemma Chain5(a: Bytes, rest: Bytes, f: Bytes, g: Bytes, h: Bytes, k: Bytes)
    requires Field(rest, 0, f) && Field(rest, 4, g) && Field(rest, 8, h) && Field(rest, 16, k)
    ensures Field(a + rest, |a|, f) && Field(a + rest, |a| + 4, g) && Field(a + rest, |a| + 8, h) && Field(a + rest, |a| + 16, k)
  {
    Chain3(a, rest, 0, f, 4, g);
    Chain3(a, rest, 8, h, 16, k);
  }

  lemma {:induction false} ChainAll(a: Bytes, rest: Bytes, t: Text, f: Bytes, g: Bytes, h: Bytes, k: Bytes)
    requires |a| == 8 && Field(rest, 0, LE(|t|, 4)) && Field(rest, 4, t)
    requires Field(rest, 4 + |t|, f) && Field(rest, 8 + |t|, g) && Field(rest, 12 + |t|, h) && Field(rest, 20 + |t|, k)
    ensures
      var (b, n) := (a + rest, |t|);
      && Field(b, 8, LE(n, 4)) && Field(b, 12, t) && Field(b, 12 + n, f) && Field(b, 16 + n, g) && Field(b, 20 + n, h) && Field(b, 28 + n, k)
  {
    hide LE;
    Chain3(a, rest, 0, LE(|t|, 4), 4, t);
    Chain3(a, rest, 4 + |t|, f, 8 + |t|, g);
    Chain3(a, rest, 12 + |t|, h, 20 + |t|, k);
  }
}
