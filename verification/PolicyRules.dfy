/** The staging guard: which slots a principal may create, move and erase, and what they cost. */
module PolicyRules {
  import opened Prelude
  import opened Texts
  import opened Geometry
  import opened Worlds
  import opened Commands

  const PRINCIPALS := 2
  const SLOTS := 8
  const BODY_LIMIT := 16384
  const OPERATION_LIMIT := 4
  const SKELETON_CHARGE := 128
  const CUBE_CHARGE := 256
  const WORKSHOP := Ascii("workshop")

  datatype Grant = Grant(lower: Vec3, upper: Vec3, retainedLimit: nat, workingLimit: nat)

  const WEST := Grant(Vec3(-8.0, -4.0, -4.0), Vec3(-1.0, 4.0, 4.0), 512, 98304)
  const EAST := Grant(Vec3(1.0, -4.0, -4.0), Vec3(8.0, 4.0, 4.0), 2048, 262144)

  function GrantOf(principal: nat): Grant
    requires principal < PRINCIPALS
  {
    if principal == 0 then WEST else EAST
  }

  function WorkingCharge(bytes: nat): nat {
    65536 + 1024 * SLOTS + 8 * bytes
  }

  /** What a guard reads of the ledger, and the admission it runs under. */
  datatype Ledger = Ledger(sponsors: seq<int>, live: seq<bool>, retained: seq<nat>, revision: u64, bound: bool)
  datatype Admission = Admission(ledger: Ledger, principal: nat, bytes: nat, usable: bool, sameWorld: bool)

  datatype Guard = Guard(principal: nat, sponsors: seq<int>, live: seq<bool>, unplaced: seq<bool>, retained: seq<nat>)

  predicate Shaped(g: Guard) {
    && g.principal < PRINCIPALS
    && |g.sponsors| == |g.live| == |g.unplaced| == SLOTS && |g.retained| == PRINCIPALS
    && forall i :: 0 <= i < SLOTS ==> g.sponsors[i] < PRINCIPALS
  }

  predicate ShapedLedger(l: Ledger) {
    && |l.sponsors| == |l.live| == SLOTS && |l.retained| == PRINCIPALS
    && forall i :: 0 <= i < SLOTS ==> l.sponsors[i] < PRINCIPALS
  }

  function Abs(r: real): (a: real)
    ensures a >= 0.0 && a >= r && a >= -r
  {
    if r < 0.0 then -r else r
  }

  /** Half the extent of the rotated, scaled unit cube along one axis. */
  function Radius(row: Vec3, scale: Vec3): real {
    Abs(row.x * scale.x) * 0.5 + Abs(row.y * scale.y) * 0.5 + Abs(row.z * scale.z) * 0.5
  }

  predicate AxisInside(centre: real, radius: real, lower: real, upper: real) {
    lower <= centre - radius && centre + radius <= upper
  }

  /** The axis-aligned box of the cube lies in the region of the grant. */
  predicate InScope(grant: Grant, t: Transform) {
    && AxisInside(t.position.x, Radius(RowX(t.rotation), t.scale), grant.lower.x, grant.upper.x)
    && AxisInside(t.position.y, Radius(RowY(t.rotation), t.scale), grant.lower.y, grant.upper.y)
    && AxisInside(t.position.z, Radius(RowZ(t.rotation), t.scale), grant.lower.z, grant.upper.z)
  }

  /** Retained bytes charged to a principal for the first `n` slots. */
  function Charged(sponsors: seq<int>, live: seq<bool>, principal: nat, n: nat): nat
    requires n <= |sponsors| == |live|
  {
    if n == 0 then 0
    else Charged(sponsors, live, principal, n - 1)
         + if sponsors[n - 1] == principal then SKELETON_CHARGE + (if live[n - 1] then CUBE_CHARGE else 0) else 0
  }

  function Account(g: Guard, operation: nat): (r: Result<Guard, Error>)
    requires Shaped(g)
    ensures r.Ok? ==> Shaped(r.value)
  {
    var retained: seq<nat> := [Charged(g.sponsors, g.live, 0, SLOTS), Charged(g.sponsors, g.live, 1, SLOTS)];
    if retained[0] > WEST.retainedLimit || retained[1] > EAST.retainedLimit
    then Err(Error("BUDGET_EXCEEDED", Some(operation)))
    else Ok(g.(retained := retained))
  }

  /** Octets of the variable-size fields; more than the body limit is rejected while adding. */
  function FieldSum(e: Envelope): nat {
    |e.protocol| + |e.worldId| + |e.transactionId| + |e.epoch| + |Ascii("next_tick")| + OperationFields(e.operations)
  }

  function OperationFields(ops: seq<Operation>): nat {
    if ops == [] then 0 else FieldsOf(ops[0]) + OperationFields(ops[1..])
  }

  function FieldsOf(op: Operation): nat {
    match op
    case Create(id, prefab) => |id| + |prefab|
    case SetTransform(t, _) => TargetText(t)
    case Delete(t) => TargetText(t) + |Ascii("reject_if_children")|
    case Reparent(t, _, _) => TargetText(t)
    case SetTags(t, _) => TargetText(t)
  }

  function FieldBytes(e: Envelope): (r: Result<nat, Error>)
    ensures r.Ok? ==> r.value <= BODY_LIMIT && |e.operations| <= OPERATION_LIMIT
    ensures r.Ok? ==> forall op :: op in e.operations ==> op.Create? || op.SetTransform? || op.Delete?
  {
    if |e.operations| > OPERATION_LIMIT || |e.operations| > e.budget.maxOperations then
      Err(Error("BUDGET_EXCEEDED", None))
    else if exists op :: op in e.operations && (op.Reparent? || op.SetTags?) then
      Err(Error("UNSUPPORTED_OPERATION", None))
    else if FieldSum(e) > BODY_LIMIT then
      Err(Error("BUDGET_EXCEEDED", None))
    else
      Ok(FieldSum(e))
  }

  /** The ledger knows exactly the slots of the world and which of them are live. */
  predicate InStep(l: Ledger, s: Snapshot)
    requires ShapedLedger(l)
  {
    && s.worldId == WORKSHOP && s.seed == 7 && s.maxSlots == SLOTS && |s.slots| <= SLOTS
    && s.revision == l.revision
    && forall i :: 0 <= i < SLOTS ==>
         && (l.sponsors[i] >= 0 <==> i < |s.slots|)
         && (l.live[i] <==> i < |s.slots| && s.slots[i].entity.Some?)
  }

  function Begin(a: Admission, s: Snapshot, e: Envelope): (r: Result<Guard, Error>)
    requires ShapedLedger(a.ledger) && a.principal < PRINCIPALS
    ensures r.Ok? ==> Shaped(r.value) && InStep(a.ledger, s) && a.usable
    ensures r.Ok? ==> r.value == Guard(a.principal, a.ledger.sponsors, a.ledger.live, seq(SLOTS, _ => false), a.ledger.retained)
    ensures r.Ok? ==> FieldBytes(e).Ok?
    ensures r.Ok? ==> forall i :: 0 <= i < |s.slots| && s.slots[i].entity.Some? ==> s.slots[i].entity.value.parent.None?
  {
    if !a.usable then Err(Error("NOT_AUTHORIZED", None))
    else
      var bytes :- FieldBytes(e);
      if s.version != 1 || exists i :: 0 <= i < |s.slots| && s.slots[i].entity.Some?
                                       && (s.slots[i].entity.value.parent.Some? || s.slots[i].entity.value.tags != [])
      then Err(Error("UNSUPPORTED_OPERATION", None))
      else if bytes > a.bytes then Err(Error("BUDGET_EXCEEDED", None))
      else if (a.ledger.bound && !a.sameWorld) || !InStep(a.ledger, s) then Err(Error("REQUIRES_RESYNC", None))
      else Ok(Guard(a.principal, a.ledger.sponsors, a.ledger.live, seq(SLOTS, _ => false), a.ledger.retained))
  }

  function OnCreate(g: Guard, slot: nat, operation: nat): (r: Result<Guard, Error>)
    requires Shaped(g)
    ensures r.Ok? ==> Shaped(r.value) && slot < SLOTS
  {
    if slot >= SLOTS then Err(Error("BUDGET_EXCEEDED", Some(operation)))
    else Account(g.(sponsors := g.sponsors[slot := g.principal], live := g.live[slot := true],
                    unplaced := g.unplaced[slot := true]), operation)
  }

  function OnTransform(g: Guard, slot: nat, before: Transform, after: Transform, operation: nat): (r: Result<Guard, Error>)
    requires Shaped(g)
    ensures r.Ok? ==> Shaped(r.value) && slot < SLOTS
  {
    // Slots beyond the table cannot occur: the guard has checked the slot count of the world.
    if slot >= SLOTS then Err(Error("NOT_AUTHORIZED", Some(operation)))
    else if (!g.unplaced[slot] && !InScope(GrantOf(g.principal), before)) || !InScope(GrantOf(g.principal), after)
    then Err(Error("NOT_AUTHORIZED", Some(operation)))
    else Ok(g.(unplaced := g.unplaced[slot := false]))
  }

  function OnErase(g: Guard, slot: nat, before: Transform, operation: nat): (r: Result<Guard, Error>)
    requires Shaped(g)
    ensures r.Ok? ==> Shaped(r.value) && slot < SLOTS
  {
    if slot >= SLOTS then Err(Error("NOT_AUTHORIZED", Some(operation)))
    else if !g.unplaced[slot] && !InScope(GrantOf(g.principal), before)
    then Err(Error("NOT_AUTHORIZED", Some(operation)))
    else Account(g.(live := g.live[slot := false], unplaced := g.unplaced[slot := false]), operation)
  }

  function Finish(g: Guard): Result<Guard, Error>
    requires Shaped(g)
  {
    if exists i :: 0 <= i < SLOTS && g.unplaced[i] then Err(Error("NOT_AUTHORIZED", None)) else Ok(g)
  }
}
