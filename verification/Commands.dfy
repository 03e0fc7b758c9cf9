/** Typed command envelopes, their validity, and the uninterpreted parts of the platform. */
module Commands {
  import opened Prelude
  import opened Texts
  import opened Geometry
  import opened Worlds

  datatype EntityTarget = EntityTarget(worldId: Text, uuid: Text, generation: u64)
  datatype Target = Temporary(id: Text) | Handle(entity: EntityTarget)
  datatype Mode = PreserveWorld | PreserveLocal

  datatype Operation =
    | Create(temporaryId: Text, prefab: Text)
    | SetTransform(target: Target, value: Transform)
    | Delete(target: Target)
    | Reparent(target: Target, parent: Option<Target>, mode: Mode)
    | SetTags(target: Target, tags: seq<Text>)

  datatype Budget = Budget(maxOperations: u64, maxBlobBytes: u64)

  datatype Envelope = Envelope(protocol: Text, worldId: Text, transactionId: Text, epoch: Text, sequence: u64,
                               expectedRevision: u64, expiresAfterTicks: u64, budget: Budget,
                               operations: seq<Operation>)

  /** An error keeps its fixed code and the index of the offending operation. */
  datatype Error = Error(code: string, operation: Option<nat>)

  datatype Binding = Binding(temporaryId: Text, worldId: Text, uuid: Text, generation: u64)

  datatype Receipt = Receipt(status: Text, durability: Text, transactionId: Text, worldRevision: u64,
                             created: seq<Binding>, errors: seq<Error>)

  const COMMITTED := Ascii("committed")
  const REJECTED := Ascii("rejected")
  const VOLATILE := Ascii("volatile")
  const DURABLE := Ascii("durable")
  const PROTOCOL := Ascii("0.1")

  type Digest = d: Bytes | |d| == 32 witness seq(32, _ => 0)

  /** What the model does not look into: binary64 encoding, SHA-256, the JSON text of an envelope,
      and the built-in asset manifest with its digest text. */
  datatype Platform = Platform(
    bits: real -> u64,
    unbits: u64 -> real,
    sha: Bytes -> Digest,
    text: Envelope -> Bytes,
    parse: Bytes -> Option<Envelope>,
    manifest: Bytes,
    manifestSha: Bytes)
  {
    /** `r` is the value of some binary64 number. */
    predicate Double(r: real) {
      unbits(bits(r)) == r
    }

    predicate Doubles(t: Transform) {
      && Double(t.position.x) && Double(t.position.y) && Double(t.position.z)
      && Double(t.rotation.x) && Double(t.rotation.y) && Double(t.rotation.z) && Double(t.rotation.w)
      && Double(t.scale.x) && Double(t.scale.y) && Double(t.scale.z)
    }
  }

  predicate UuidShaped(t: Text) {
    && |t| == 36
    && forall i :: 0 <= i < 36 ==>
         if i in [8, 13, 18, 23] then t[i] == 0x2D else 0x30 <= t[i] <= 0x39 || 0x61 <= t[i] <= 0x66
  }

  predicate ValidTarget(t: Target) {
    match t
    case Temporary(id) => Identifier(id, 64)
    case Handle(e) => Identifier(e.worldId, 128) && UuidShaped(e.uuid)
  }

  predicate ValidOperation(pl: Platform, op: Operation) {
    match op
    case Create(id, prefab) => Identifier(id, 64) && Identifier(prefab, 128)
    case SetTransform(t, value) => ValidTarget(t) && pl.Doubles(value)
    case Delete(t) => ValidTarget(t)
    case Reparent(t, parent, _) => ValidTarget(t) && (parent.Some? ==> ValidTarget(parent.value))
    case SetTags(t, tags) =>
      && ValidTarget(t) && |tags| <= 8
      && (forall i :: 0 <= i < |tags| ==> Identifier(tags[i], 32))
      && forall i, j :: 0 <= i < j < |tags| ==> tags[i] != tags[j]
  }

  /** What `commands::serialize` and `commands::parse` accept. */
  predicate ValidEnvelope(pl: Platform, e: Envelope) {
    && e.protocol == PROTOCOL
    && Identifier(e.worldId, 128) && UuidShaped(e.transactionId) && Identifier(e.epoch, 128)
    && 1 <= e.expiresAfterTicks < U32_LIMIT
    && 1 <= e.budget.maxOperations <= 256
    && 1 <= |e.operations| <= e.budget.maxOperations
    && forall i :: 0 <= i < |e.operations| ==> ValidOperation(pl, e.operations[i])
  }

  function Serialize(pl: Platform, e: Envelope): Option<Bytes> {
    if ValidEnvelope(pl, e) then Some(pl.text(e)) else None
  }

  // The canonical text has fixed keys and punctuation around its variable parts. Every integer
  // takes at most 20 characters, every binary64 number at most 25, and identifiers need no escape.

  const HEADER_TEXT := 512
  const OPERATION_TEXT := 512

  function TargetText(t: Target): nat {
    match t
    case Temporary(id) => |id|
    case Handle(e) => |e.worldId| + |e.uuid|
  }

  function TagText(tags: seq<Text>): nat {
    if tags == [] then 0 else |tags[0]| + 3 + TagText(tags[1..])
  }

  function OperationText(op: Operation): nat {
    OPERATION_TEXT +
    match op
    case Create(id, prefab) => |id| + |prefab|
    case SetTransform(t, _) => TargetText(t)
    case Delete(t) => TargetText(t)
    case Reparent(t, parent, _) => TargetText(t) + if parent.Some? then TargetText(parent.value) else 0
    case SetTags(t, tags) => TargetText(t) + TagText(tags)
  }

  function OperationsText(ops: seq<Operation>): nat {
    if ops == [] then 0 else OperationText(ops[0]) + OperationsText(ops[1..])
  }

  /** Bound on the length of the canonical text. */
  function TextBound(e: Envelope): nat {
    HEADER_TEXT + |e.protocol| + |e.worldId| + |e.transactionId| + |e.epoch| + OperationsText(e.operations)
  }

  /** The facts about the platform that the results rest on. */
  ghost predicate Lawful(pl: Platform) {
    && (forall e :: ValidEnvelope(pl, e) ==> pl.parse(pl.text(e)) == Some(e))
    && (forall e :: ValidEnvelope(pl, e) ==> 0 < |pl.text(e)| <= TextBound(e))
    && |pl.manifest| <= 4096 && |pl.manifestSha| == 64
  }

  // The bounds shared by the history, the recorder and the store.

  predicate BoundedTarget(t: Target) {
    match t
    case Temporary(id) => |id| <= 64
    case Handle(e) => |e.worldId| <= 128 && |e.uuid| <= 36
  }

  predicate BoundedOperation(op: Operation) {
    match op
    case Create(id, prefab) => |id| <= 64 && |prefab| <= 128
    case SetTransform(t, _) => BoundedTarget(t)
    case Delete(t) => BoundedTarget(t)
    case Reparent(t, parent, _) => BoundedTarget(t) && (parent.Some? ==> BoundedTarget(parent.value))
    case SetTags(t, tags) => BoundedTarget(t) && |tags| <= 8 && forall i :: 0 <= i < |tags| ==> |tags[i]| <= 32
  }

  predicate BoundedOperations(ops: seq<Operation>) {
    |ops| <= 4 && forall i :: 0 <= i < |ops| ==> BoundedOperation(ops[i])
  }

  predicate Bounded(e: Envelope) {
    && |e.protocol| <= 16 && |e.worldId| <= 128 && |e.transactionId| <= 36 && |e.epoch| <= 128
    && BoundedOperations(e.operations)
  }

  const COMMAND_LIMIT := 16384

  lemma {:induction false} TagTextBound(tags: seq<Text>)
    requires forall i :: 0 <= i < |tags| ==> |tags[i]| <= 32
    ensures TagText(tags) <= 35 * |tags|
  {
    if tags != [] {
      TagTextBound(tags[1..]);
    }
  }

  lemma {:induction false} OperationsTextBound(ops: seq<Operation>)
    requires forall i :: 0 <= i < |ops| ==> BoundedOperation(ops[i])
    ensures OperationsText(ops) <= 1024 * |ops|
  {
    if ops != [] {
      OperationsTextBound(ops[1..]);
      if ops[0].SetTags? {
        TagTextBound(ops[0].tags);
      }
    }
  }

  /** A bounded envelope never reaches the command limit, whatever its headers. */
  lemma BoundedText(e: Envelope)
    requires Bounded(e)
    ensures TextBound(e) <= COMMAND_LIMIT
  {
    OperationsTextBound(e.operations);
  }
}
