/** The assumptions about the platform can be met: one platform that satisfies all of them. */
module Lawfulness {
  import opened Prelude
  import opened Texts
  import opened Geometry
  import opened Worlds
  import opened Commands
  import opened Canonical

  // A plain injective encoding of envelopes, on a platform whose numbers are the integers of 64 bits.

  function Bits(r: real): u64 {
    if r.Floor as real == r && 0 <= r.Floor < U64_LIMIT then r.Floor else 0
  }

  /** The numbers of the platform, without its texts. */
  function Base(): Platform {
    Platform((r: real) => Bits(r), (n: u64) => n as real, (b: Bytes) => seq(32, i => 0), (e: Envelope) => [], (b: Bytes) => None,
             [], seq(64, i => 0x30))
  }

  function TargetCode(t: Target, rest: Bytes): Bytes {
    match t
    case Temporary(id) => [0] + (Text32(id) + rest)
    case Handle(e) => [1] + (Text32(e.worldId) + (Text32(e.uuid) + (LE(e.generation, 8) + rest)))
  }

  function TagsCode(tags: seq<Text>, rest: Bytes): Bytes {
    if tags == [] then rest else Text32(tags[0]) + TagsCode(tags[1..], rest)
  }

  function ModeCode(mode: Mode, rest: Bytes): Bytes {
    [if mode.PreserveWorld? then 0 else 1] + rest
  }

  function ParentCode(parent: Option<Target>, rest: Bytes): Bytes {
    match parent
    case None => [0] + rest
    case Some(t) => [1] + TargetCode(t, rest)
  }

  function OperationCode(op: Operation, rest: Bytes): Bytes {
    match op
    case Create(id, prefab) => [0] + (Text32(id) + (Text32(prefab) + rest))
    case SetTransform(t, value) => [1] + TargetCode(t, TransformBytes(Base(), value) + rest)
    case Delete(t) => [2] + TargetCode(t, rest)
    case Reparent(t, parent, mode) => [3] + TargetCode(t, ParentCode(parent, ModeCode(mode, rest)))
    case SetTags(t, tags) => [4] + TargetCode(t, LE(|tags|, 4) + TagsCode(tags, rest))
  }

  function OperationsCode(ops: seq<Operation>, rest: Bytes): Bytes {
    if ops == [] then rest else OperationCode(ops[0], OperationsCode(ops[1..], rest))
  }

  function NumbersCode(e: Envelope, rest: Bytes): Bytes {
    LE(e.sequence, 8) + (LE(e.expectedRevision, 8) + (LE(e.expiresAfterTicks, 8) +
    (LE(e.budget.maxOperations, 8) + (LE(e.budget.maxBlobBytes, 8) + rest))))
  }

  function Code(e: Envelope): Bytes {
    Text32(e.worldId) + (Text32(e.transactionId) + (Text32(e.epoch) +
    NumbersCode(e, LE(|e.operations|, 4) + OperationsCode(e.operations, []))))
  }

  lemma CancelTag(a: byte, b: byte, x: Bytes, y: Bytes)
    requires [a] + x == [b] + y
    ensures a == b && x == y
  {
    CancelFixed([a], [b], x, y);
  }

  predicate SmallTarget(t: Target) {
    match t
    case Temporary(id) => |id| <= 128
    case Handle(e) => |e.worldId| <= 128 && |e.uuid| <= 128
  }

  lemma CancelTarget(a: Target, b: Target, x: Bytes, y: Bytes)
    requires SmallTarget(a) && SmallTarget(b) && TargetCode(a, x) == TargetCode(b, y)
    ensures a == b && x == y
  {
    hide LE, Text32;
    Widths();
    var (tail, tail') := (TargetCode(a, x)[1..], TargetCode(b, y)[1..]);
    assert TargetCode(a, x) == [if a.Temporary? then 0 else 1] + tail;
    assert TargetCode(b, y) == [if b.Temporary? then 0 else 1] + tail';
    CancelTag(if a.Temporary? then 0 else 1, if b.Temporary? then 0 else 1, tail, tail');
    match (a, b)
    case (Temporary(i), Temporary(j)) =>
      assert tail == Text32(i) + x && tail' == Text32(j) + y;
      CancelText32(i, j, x, y);
    case (Handle(e), Handle(f)) =>
      var (p, q) := (LE(e.generation, 8) + x, LE(f.generation, 8) + y);
      assert tail == Text32(e.worldId) + (Text32(e.uuid) + p) && tail' == Text32(f.worldId) + (Text32(f.uuid) + q);
      CancelText32(e.worldId, f.worldId, Text32(e.uuid) + p, Text32(f.uuid) + q);
      CancelText32(e.uuid, f.uuid, p, q);
      CancelLE(e.generation, f.generation, 8, x, y);
    case _ =>
  }

  lemma {:induction false} CancelTags(a: seq<Text>, b: seq<Text>, x: Bytes, y: Bytes)
    requires |a| == |b| && TagsCode(a, x) == TagsCode(b, y)
    requires forall i :: 0 <= i < |a| ==> |a[i]| <= 128 && |b[i]| <= 128
    ensures a == b && x == y
  {
    hide Text32;
    if a != [] {
      CancelText32(a[0], b[0], TagsCode(a[1..], x), TagsCode(b[1..], y));
      CancelTags(a[1..], b[1..], x, y);
      assert a == [a[0]] + a[1..] && b == [b[0]] + b[1..];
    }
  }

  lemma CancelParent(a: Option<Target>, b: Option<Target>, x: Bytes, y: Bytes)
    requires (a.Some? ==> SmallTarget(a.value)) && (b.Some? ==> SmallTarget(b.value)) && ParentCode(a, x) == ParentCode(b, y)
    ensures a == b && x == y
  {
    hide TargetCode;
    var (tail, tail') := (if a.Some? then TargetCode(a.value, x) else x, if b.Some? then TargetCode(b.value, y) else y);
    CancelTag(if a.Some? then 1 else 0, if b.Some? then 1 else 0, tail, tail');
    if a.Some? {
      CancelTarget(a.value, b.value, x, y);
    }
  }

  /** What the encoding needs of a valid operation: short texts, and numbers of the platform. */
  predicate Plain(op: Operation) {
    match op
    case Create(id, prefab) => |id| <= 128 && |prefab| <= 128
    case SetTransform(t, value) => SmallTarget(t) && Base().Doubles(value)
    case Delete(t) => SmallTarget(t)
    case Reparent(t, parent, _) => SmallTarget(t) && (parent.Some? ==> SmallTarget(parent.value))
    case SetTags(t, tags) => SmallTarget(t) && |tags| <= 8 && forall i :: 0 <= i < |tags| ==> |tags[i]| <= 32
  }

  function Kind(op: Operation): byte {
    match op
    case Create(_, _) => 0
    case SetTransform(_, _) => 1
    case Delete(_) => 2
    case Reparent(_, _, _) => 3
    case SetTags(_, _) => 4
  }

  function Body(op: Operation, rest: Bytes): Bytes {
    match op
    case Create(id, prefab) => Text32(id) + (Text32(prefab) + rest)
    case SetTransform(t, value) => TargetCode(t, TransformBytes(Base(), value) + rest)
    case Delete(t) => TargetCode(t, rest)
    case Reparent(t, parent, mode) => TargetCode(t, ParentCode(parent, ModeCode(mode, rest)))
    case SetTags(t, tags) => TargetCode(t, LE(|tags|, 4) + TagsCode(tags, rest))
  }

  lemma CancelOperation(a: Operation, b: Operation, x: Bytes, y: Bytes)
    requires Plain(a) && Plain(b) && OperationCode(a, x) == OperationCode(b, y)
    ensures a == b && x == y
  {
    hide LE, Text32, TargetCode, ParentCode, TagsCode, TransformBytes, Base;
    assert OperationCode(a, x) == [Kind(a)] + Body(a, x) && OperationCode(b, y) == [Kind(b)] + Body(b, y);
    CancelTag(Kind(a), Kind(b), Body(a, x), Body(b, y));
    match (a, b)
    case (Create(i, p), Create(j, q)) =>
      CancelText32(i, j, Text32(p) + x, Text32(q) + y);
      CancelText32(p, q, x, y);
    case (SetTransform(t, p), SetTransform(u, q)) =>
      CancelTarget(t, u, TransformBytes(Base(), p) + x, TransformBytes(Base(), q) + y);
      CancelTransform(Base(), p, q, x, y);
    case (Delete(t), Delete(u)) => CancelTarget(t, u, x, y);
    case (Reparent(t, p, m), Reparent(u, q, n)) =>
      CancelTarget(t, u, ParentCode(p, ModeCode(m, x)), ParentCode(q, ModeCode(n, y)));
      CancelParent(p, q, ModeCode(m, x), ModeCode(n, y));
      CancelTag(if m.PreserveWorld? then 0 else 1, if n.PreserveWorld? then 0 else 1, x, y);
    case (SetTags(t, p), SetTags(u, q)) =>
      Widths();
      CancelTarget(t, u, LE(|p|, 4) + TagsCode(p, x), LE(|q|, 4) + TagsCode(q, y));
      CancelLE(|p|, |q|, 4, TagsCode(p, x), TagsCode(q, y));
      CancelTags(p, q, x, y);
    case _ =>
  }

  lemma {:induction false} CancelOperations(a: seq<Operation>, b: seq<Operation>, x: Bytes, y: Bytes)
    requires |a| == |b| && OperationsCode(a, x) == OperationsCode(b, y)
    requires forall i :: 0 <= i < |a| ==> Plain(a[i]) && Plain(b[i])
    ensures a == b
  {
    hide OperationCode, Plain;
    if a != [] {
      CancelOperation(a[0], b[0], OperationsCode(a[1..], x), OperationsCode(b[1..], y));
      CancelOperations(a[1..], b[1..], x, y);
      assert a == [a[0]] + a[1..] && b == [b[0]] + b[1..];
    }
  }

  lemma CancelNumbers(a: Envelope, b: Envelope, x: Bytes, y: Bytes)
    requires NumbersCode(a, x) == NumbersCode(b, y)
    ensures a.sequence == b.sequence && a.expectedRevision == b.expectedRevision && a.expiresAfterTicks == b.expiresAfterTicks
    ensures a.budget == b.budget && x == y
  {
    hide LE;
    Widths();
    var (p4, q4) := (LE(a.budget.maxBlobBytes, 8) + x, LE(b.budget.maxBlobBytes, 8) + y);
    var (p3, q3) := (LE(a.budget.maxOperations, 8) + p4, LE(b.budget.maxOperations, 8) + q4);
    var (p2, q2) := (LE(a.expiresAfterTicks, 8) + p3, LE(b.expiresAfterTicks, 8) + q3);
    CancelLE(a.sequence, b.sequence, 8, LE(a.expectedRevision, 8) + p2, LE(b.expectedRevision, 8) + q2);
    CancelLE(a.expectedRevision, b.expectedRevision, 8, p2, q2);
    CancelLE(a.expiresAfterTicks, b.expiresAfterTicks, 8, p3, q3);
    CancelLE(a.budget.maxOperations, b.budget.maxOperations, 8, p4, q4);
    CancelLE(a.budget.maxBlobBytes, b.budget.maxBlobBytes, 8, x, y);
  }

  predicate PlainEnvelope(e: Envelope) {
    && e.protocol == PROTOCOL && |e.worldId| <= 128 && |e.transactionId| <= 36 && |e.epoch| <= 128
    && 1 <= |e.operations| <= 256
    && forall i :: 0 <= i < |e.operations| ==> Plain(e.operations[i])
  }

  lemma CodeInjective(a: Envelope, b: Envelope)
    requires PlainEnvelope(a) && PlainEnvelope(b) && Code(a) == Code(b)
    ensures a == b
  {
    hide LE, Text32, NumbersCode, OperationsCode, Plain;
    Widths();
    var (o, o') := (LE(|a.operations|, 4) + OperationsCode(a.operations, []), LE(|b.operations|, 4) + OperationsCode(b.operations, []));
    CancelText32(a.worldId, b.worldId, Text32(a.transactionId) + (Text32(a.epoch) + NumbersCode(a, o)),
                 Text32(b.transactionId) + (Text32(b.epoch) + NumbersCode(b, o')));
    CancelText32(a.transactionId, b.transactionId, Text32(a.epoch) + NumbersCode(a, o), Text32(b.epoch) + NumbersCode(b, o'));
    CancelText32(a.epoch, b.epoch, NumbersCode(a, o), NumbersCode(b, o'));
    CancelNumbers(a, b, o, o');
    CancelLE(|a.operations|, |b.operations|, 4, OperationsCode(a.operations, []), OperationsCode(b.operations, []));
    CancelOperations(a.operations, b.operations, [], []);
  }

  // Lengths

  lemma {:induction false} TagsLength(tags: seq<Text>, rest: Bytes)
    ensures |TagsCode(tags, rest)| == TagText(tags) + |tags| + |rest|
  {
    if tags != [] {
      TagsLength(tags[1..], rest);
    }
  }

  lemma TargetLength(t: Target, rest: Bytes)
    ensures |TargetCode(t, rest)| <= TargetText(t) + 17 + |rest|
  {
  }

  lemma TransformLength(t: Transform)
    ensures |TransformBytes(Base(), t)| == 80
  {
  }

  lemma OperationLength(op: Operation, rest: Bytes)
    requires Plain(op)
    ensures |OperationCode(op, rest)| <= OperationText(op) + |rest|
  {
    hide TargetCode, TagsCode, TargetText, TransformBytes;
    match op
    case Create(_, _) =>
    case SetTransform(t, value) =>
      TargetLength(t, TransformBytes(Base(), value) + rest);
      TransformLength(value);
    case Delete(t) => TargetLength(t, rest);
    case Reparent(t, parent, mode) =>
      TargetLength(t, ParentCode(parent, ModeCode(mode, rest)));
      if parent.Some? {
        TargetLength(parent.value, ModeCode(mode, rest));
      }
    case SetTags(t, tags) =>
      TargetLength(t, LE(|tags|, 4) + TagsCode(tags, rest));
      TagsLength(tags, rest);
  }

  lemma {:induction false} OperationsLength(ops: seq<Operation>, rest: Bytes)
    requires forall i :: 0 <= i < |ops| ==> Plain(ops[i])
    ensures |OperationsCode(ops, rest)| <= OperationsText(ops) + |rest|
  {
    hide OperationCode, Plain, OperationText;
    if ops != [] {
      OperationsLength(ops[1..], rest);
      OperationLength(ops[0], OperationsCode(ops[1..], rest));
    }
  }

  lemma CodeLength(e: Envelope)
    requires PlainEnvelope(e)
    ensures 0 < |Code(e)| <= TextBound(e)
  {
    hide Plain, OperationsCode, OperationsText;
    OperationsLength(e.operations, []);
  }

  // The platform

  /** The envelope with this code, if any. */
  ghost function Decode(b: Bytes): Option<Envelope> {
    if e :| PlainEnvelope(e) && Code(e) == b then Some(e) else None
  }

  ghost function Witness(): Platform {
    Base().(text := (e: Envelope) => Code(e), parse := (b: Bytes) => Decode(b))
  }

  lemma ValidPlain(e: Envelope)
    requires ValidEnvelope(Witness(), e)
    ensures PlainEnvelope(e)
  {
    forall i | 0 <= i < |e.operations|
      ensures Plain(e.operations[i])
    {
      OperationPlain(e.operations[i]);
    }
  }

  lemma OperationPlain(op: Operation)
    requires ValidOperation(Witness(), op)
    ensures Plain(op)
  {
  }

  /** The facts the results rest on hold together on some platform. */
  lemma SomePlatformLawful()
    ensures Lawful(Witness())
  {
    hide ValidEnvelope, PlainEnvelope, TextBound, Code, Base;
    assert |Witness().manifest| == 0 && |Witness().manifestSha| == 64 by {
      BaseTexts();
    }
    forall e | ValidEnvelope(Witness(), e)
      ensures Witness().parse(Witness().text(e)) == Some(e) && 0 < |Witness().text(e)| <= TextBound(e)
    {
      ValidPlain(e);
      CodeLength(e);
      var f := Decode(Code(e)).value;
      CodeInjective(e, f);
    }
  }

  lemma BaseTexts()
    ensures |Base().manifest| == 0 && |Base().manifestSha| == 64
  {
  }

  /** On that platform there are valid commands that place a cube. */
  lemma SomeTransformValid(target: Target)
    requires ValidTarget(target)
    ensures Witness().Doubles(IDENTITY) && Proper(IDENTITY) && ValidOperation(Witness(), SetTransform(target, IDENTITY))
  {
    assert Bits(0.0) == 0 && Bits(1.0) == 1;
  }
}
