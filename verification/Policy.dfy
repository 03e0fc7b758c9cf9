/** What the policy guard achieves: spatial separation of the principals and exact accounting. */
module Policy {
  import opened Prelude
  import opened Texts
  import opened Geometry
  import opened Worlds
  import opened Commands
  import opened PolicyRules
  import opened Batch
  import opened Hierarchy
  import opened Operations
  import opened Lifetimes
  import opened Edits

  // The box of a cube

  predicate InCube(v: Vec3) {
    -0.5 <= v.x <= 0.5 && -0.5 <= v.y <= 0.5 && -0.5 <= v.z <= 0.5
  }

  predicate InRegion(grant: Grant, p: Vec3) {
    && grant.lower.x <= p.x <= grant.upper.x
    && grant.lower.y <= p.y <= grant.upper.y
    && grant.lower.z <= p.z <= grant.upper.z
  }

  // The products are kept behind names; only the lemmas on single terms look inside.

  function Term(a: real, s: real, v: real): real {
    a * (s * v)
  }

  function Half(a: real, s: real): real {
    Abs(a * s) * 0.5
  }

  lemma NonNegative(a: real, b: real)
    requires a >= 0.0 && b >= 0.0
    ensures a * b >= 0.0
  {
  }

  lemma Scaled(k: real, v: real)
    requires -0.5 <= v <= 0.5
    ensures -(Abs(k) * 0.5) <= k * v <= Abs(k) * 0.5
  {
    NonNegative(Abs(k), v + 0.5);
    NonNegative(Abs(k), 0.5 - v);
    assert Abs(k) * (v + 0.5) == Abs(k) * v + Abs(k) * 0.5;
    assert Abs(k) * (0.5 - v) == Abs(k) * 0.5 - Abs(k) * v;
    assert k < 0.0 ==> Abs(k) * v == -(k * v);
  }

  lemma TermBound(a: real, s: real, v: real)
    requires -0.5 <= v <= 0.5
    ensures -Half(a, s) <= Term(a, s, v) <= Half(a, s)
  {
    Scaled(a * s, v);
    assert Term(a, s, v) == (a * s) * v;
  }

  /** The half of the cube's edge that goes furthest along a positive direction. */
  function Corner(a: real, s: real): real {
    if a * s < 0.0 then -0.5 else 0.5
  }

  lemma CornerTerm(a: real, s: real)
    ensures Term(a, s, Corner(a, s)) == Half(a, s) && Term(a, s, -Corner(a, s)) == -Half(a, s)
    ensures -0.5 <= Corner(a, s) <= 0.5
  {
    assert Term(a, s, Corner(a, s)) == (a * s) * Corner(a, s);
    assert Term(a, s, -Corner(a, s)) == (a * s) * -Corner(a, s);
  }

  lemma DotTerms(row: Vec3, s: Vec3, v: Vec3)
    ensures Dot(row, Stretched(s, v)) == Term(row.x, s.x, v.x) + Term(row.y, s.y, v.y) + Term(row.z, s.z, v.z)
    ensures Radius(row, s) == Half(row.x, s.x) + Half(row.y, s.y) + Half(row.z, s.z)
  {
  }

  /** Along one axis the cube reaches exactly its radius to either side. */
  lemma AxisReach(row: Vec3, s: Vec3, v: Vec3)
    ensures InCube(v) ==> -Radius(row, s) <= Dot(row, Stretched(s, v)) <= Radius(row, s)
    ensures
      var c := Vec3(Corner(row.x, s.x), Corner(row.y, s.y), Corner(row.z, s.z));
      && InCube(c) && InCube(Vec3(-c.x, -c.y, -c.z))
      && Dot(row, Stretched(s, c)) == Radius(row, s) && Dot(row, Stretched(s, Vec3(-c.x, -c.y, -c.z))) == -Radius(row, s)
  {
    hide Dot, Radius, Term, Half, Stretched, Corner;
    var c := Vec3(Corner(row.x, s.x), Corner(row.y, s.y), Corner(row.z, s.z));
    DotTerms(row, s, v);
    DotTerms(row, s, c);
    DotTerms(row, s, Vec3(-c.x, -c.y, -c.z));
    if InCube(v) {
      TermBound(row.x, s.x, v.x);
      TermBound(row.y, s.y, v.y);
      TermBound(row.z, s.z, v.z);
    }
    CornerTerm(row.x, s.x);
    CornerTerm(row.y, s.y);
    CornerTerm(row.z, s.z);
  }

  /** The scope test holds exactly when every point of the rotated, scaled cube lies in the region. */
  lemma ScopeExact(grant: Grant, t: Transform)
    ensures InScope(grant, t) <==> forall v :: InCube(v) ==> InRegion(grant, PointOf(t, v))
  {
    hide Dot, Radius, RowX, RowY, RowZ, Stretched, Corner;
    forall v | InCube(v) && InScope(grant, t)
      ensures InRegion(grant, PointOf(t, v))
    {
      AxisReach(RowX(t.rotation), t.scale, v);
      AxisReach(RowY(t.rotation), t.scale, v);
      AxisReach(RowZ(t.rotation), t.scale, v);
    }
    if forall v :: InCube(v) ==> InRegion(grant, PointOf(t, v)) {
      AxisTight(grant, t, RowX(t.rotation));
      AxisTight(grant, t, RowY(t.rotation));
      AxisTight(grant, t, RowZ(t.rotation));
    }
  }

  lemma AxisTight(grant: Grant, t: Transform, row: Vec3)
    requires forall v :: InCube(v) ==> InRegion(grant, PointOf(t, v))
    ensures row == RowX(t.rotation) ==> AxisInside(t.position.x, Radius(row, t.scale), grant.lower.x, grant.upper.x)
    ensures row == RowY(t.rotation) ==> AxisInside(t.position.y, Radius(row, t.scale), grant.lower.y, grant.upper.y)
    ensures row == RowZ(t.rotation) ==> AxisInside(t.position.z, Radius(row, t.scale), grant.lower.z, grant.upper.z)
  {
    hide Dot, Radius, RowX, RowY, RowZ, Stretched, Corner, InCube;
    var c := Vec3(Corner(row.x, t.scale.x), Corner(row.y, t.scale.y), Corner(row.z, t.scale.z));
    AxisReach(row, t.scale, c);
    assert InRegion(grant, PointOf(t, c)) && InRegion(grant, PointOf(t, Vec3(-c.x, -c.y, -c.z)));
  }

  /** No cube lies in the regions of both principals. */
  lemma RegionsApart(t: Transform)
    ensures !(InScope(WEST, t) && InScope(EAST, t))
  {
    hide RowX, RowY, RowZ;
  }

  // What the guard keeps while a batch is staged

  predicate LiveSlot(slots: seq<Slot>, i: nat) {
    i < |slots| && slots[i].entity.Some?
  }

  /** The ledger arrays describe exactly these slots. */
  predicate Mirrors(slots: seq<Slot>, sponsors: seq<int>, live: seq<bool>)
    requires |sponsors| == |live| == SLOTS
  {
    && |slots| <= SLOTS
    && forall i :: 0 <= i < SLOTS ==> (sponsors[i] >= 0 <==> i < |slots|) && (live[i] <==> LiveSlot(slots, i))
  }

  /** The retained charges are those of the slots, and within the limits. */
  predicate Balanced(sponsors: seq<int>, live: seq<bool>, retained: seq<nat>)
    requires |sponsors| == |live| == SLOTS && |retained| == PRINCIPALS
  {
    forall p :: 0 <= p < PRINCIPALS ==> retained[p] == Charged(sponsors, live, p, SLOTS) <= GrantOf(p).retainedLimit
  }

  predicate Flat(slot: Slot) {
    slot.entity.Some? ==> slot.entity.value.parent.None? && slot.entity.value.tags == []
  }

  /** Every placed cube lies in the region of the principal that sponsors its slot. */
  predicate Separate(slots: seq<Slot>, sponsors: seq<int>, unplaced: seq<bool>)
    requires |sponsors| == |unplaced| == SLOTS && |slots| <= SLOTS
    requires forall i :: 0 <= i < SLOTS ==> sponsors[i] < PRINCIPALS
  {
    forall i :: 0 <= i < |slots| && slots[i].entity.Some? ==>
      sponsors[i] >= 0 && (!unplaced[i] ==> InScope(GrantOf(sponsors[i]), slots[i].entity.value.transform))
  }

  /** The cubes of `before` in the region of `other` are as they were. */
  predicate Untouched(before: seq<Slot>, slots: seq<Slot>, other: nat)
    requires other < PRINCIPALS
  {
    |before| <= |slots| && forall i :: 0 <= i < |before| && Foreign(before[i], other) ==> slots[i] == before[i]
  }

  predicate Foreign(slot: Slot, other: nat)
    requires other < PRINCIPALS
  {
    slot.entity.Some? && InScope(GrantOf(other), slot.entity.value.transform)
  }

  ghost predicate Guards(before: seq<Slot>, slots: seq<Slot>, g: Guard) {
    && Shaped(g)
    && Mirrors(slots, g.sponsors, g.live) && Balanced(g.sponsors, g.live, g.retained)
    && (forall i :: 0 <= i < |slots| ==> Flat(slots[i]))
    && (forall i :: 0 <= i < SLOTS && g.unplaced[i] ==> LiveSlot(slots, i) && g.sponsors[i] == g.principal)
    && Separate(slots, g.sponsors, g.unplaced)
    && Untouched(before, slots, 1 - g.principal)
    && (forall i :: 0 <= i < |before| && Foreign(before[i], 1 - g.principal) ==> !g.unplaced[i])
  }

  /** The operations the policy admits. */
  predicate Admissible(op: Operation) {
    op.Create? || op.SetTransform? || op.Delete?
  }

  lemma AccountBalances(g: Guard, operation: nat)
    requires Shaped(g) && Account(g, operation).Ok?
    ensures
      var r := Account(g, operation).value;
      r == g.(retained := r.retained) && Balanced(r.sponsors, r.live, r.retained)
  {
    hide Charged;
    var r := Account(g, operation).value;
    forall p | 0 <= p < PRINCIPALS
      ensures r.retained[p] == Charged(r.sponsors, r.live, p, SLOTS) <= GrantOf(p).retainedLimit
    {
      assert p == 0 || p == 1;
    }
  }

  lemma CreateGuarded(cx: Context, before: seq<Slot>, st: Staging, op: Operation, operation: nat)
    requires st.guard.Some? && Guards(before, st.slots, st.guard.value) && cx.maxSlots == SLOTS
    requires op.Create? && DoCreate(cx, st, op, operation).Ok?
    ensures
      var r := DoCreate(cx, st, op, operation).value;
      r.guard.Some? && r.guard.value.principal == st.guard.value.principal && Guards(before, r.slots, r.guard.value)
  {
    hide InScope, Charged, Balanced, Uuid, Separate, Untouched, Account, Foreign;
    var g, at, r := st.guard.value, FirstFree(st.slots, 0), DoCreate(cx, st, op, operation).value;
    var marked := g.(sponsors := g.sponsors[at := g.principal], live := g.live[at := true], unplaced := g.unplaced[at := true]);
    AccountBalances(marked, operation);
    CreateSeparate(before, st.slots, r.slots, g, at);
  }

  /** A cube that is not placed yet is in nobody's region. */
  lemma CreateSeparate(before: seq<Slot>, slots: seq<Slot>, after: seq<Slot>, g: Guard, at: nat)
    requires Guards(before, slots, g) && at < SLOTS && at <= |slots| <= |after| <= SLOTS && at < |after|
    requires at < |slots| ==> slots[at].entity.None?
    requires |after| == if at < |slots| then |slots| else |slots| + 1
    requires forall i :: 0 <= i < |slots| && i != at ==> after[i] == slots[i]
    ensures Separate(after, g.sponsors[at := g.principal], g.unplaced[at := true]) && Untouched(before, after, 1 - g.principal)
    ensures forall i :: 0 <= i < |before| && Foreign(before[i], 1 - g.principal) ==> !g.unplaced[at := true][i]
  {
    hide InScope, Charged, Balanced;
    assert at < |before| ==> !Foreign(before[at], 1 - g.principal);
  }

  lemma NobodyHasChildren(slots: seq<Slot>, at: nat)
    requires at < |slots| && slots[at].entity.Some? && forall i :: 0 <= i < |slots| ==> Flat(slots[i])
    ensures Isolated(slots, at) && ParentIndex(slots, at) < 0
  {
    forall c | 0 <= c < |slots|
      ensures !ChildOf(slots[c], slots[at])
    {
      assert Flat(slots[c]);
    }
    assert Flat(slots[at]);
  }

  lemma TransformGuarded(cx: Context, before: seq<Slot>, st: Staging, op: Operation, operation: nat)
    requires st.guard.Some? && Guards(before, st.slots, st.guard.value)
    requires op.SetTransform? && DoTransform(cx, st, op, operation).Ok?
    ensures
      var r := DoTransform(cx, st, op, operation).value;
      r.guard.Some? && r.guard.value.principal == st.guard.value.principal && Guards(before, r.slots, r.guard.value)
  {
    hide InScope, Charged, Balanced, Proper, Uniform, Relative, Compose, Refresh;
    var g, at := st.guard.value, Resolve(cx, st, op.target, operation).value;
    var r := DoTransform(cx, st, op, operation).value;
    NobodyHasChildren(st.slots, at);
    var e := EntityAt(st.slots, at);
    var moved := WithEntity(st.slots, at, e.(transform := op.value));
    assert Placed(st.slots, at, op.value) == e.(transform := op.value);
    forall i | 0 <= i < |moved|
      ensures Flat(moved[i])
    {
      assert Flat(st.slots[i]);
    }
    NobodyHasChildren(moved, at);
    RefreshAlone(moved, at, cx.next);
    assert r.slots == WithEntity(st.slots, at, e.(transform := op.value, revision := cx.next));
    MovedSeparate(before, st.slots, g, at, e.(transform := op.value, revision := cx.next));
  }

  /** A cube moved under the guard stays in its sponsor's region and leaves the other region alone. */
  lemma MovedSeparate(before: seq<Slot>, slots: seq<Slot>, g: Guard, at: nat, e: Entity)
    requires Guards(before, slots, g) && at < |slots| && slots[at].entity.Some? && at < SLOTS
    requires e == EntityAt(slots, at).(transform := e.transform, revision := e.revision)
    requires !g.unplaced[at] ==> InScope(GrantOf(g.principal), EntityAt(slots, at).transform)
    requires InScope(GrantOf(g.principal), e.transform)
    requires g.unplaced[at] ==> g.sponsors[at] == g.principal
    ensures Guards(before, WithEntity(slots, at, e), g.(unplaced := g.unplaced[at := false]))
  {
    hide InScope, Charged, Balanced;
    RegionsApart(EntityAt(slots, at).transform);
    var next := WithEntity(slots, at, e);
    assert forall i :: 0 <= i < |slots| && i != at ==> next[i] == slots[i];
    assert !g.unplaced[at] ==> g.sponsors[at] == g.principal;
    assert at < |before| ==> !Foreign(before[at], 1 - g.principal);
    assert Flat(slots[at]);
  }

  lemma DeleteGuarded(cx: Context, before: seq<Slot>, st: Staging, op: Operation, operation: nat)
    requires st.guard.Some? && Guards(before, st.slots, st.guard.value)
    requires op.Delete? && DoDelete(cx, st, op, operation).Ok?
    ensures
      var r := DoDelete(cx, st, op, operation).value;
      r.guard.Some? && r.guard.value.principal == st.guard.value.principal && Guards(before, r.slots, r.guard.value)
  {
    hide InScope, Charged, Balanced;
    var g, at := st.guard.value, Resolve(cx, st, op.target, operation).value;
    var r := DoDelete(cx, st, op, operation).value;
    AccountBalances(g.(live := g.live[at := false], unplaced := g.unplaced[at := false]), operation);
    RegionsApart(EntityAt(st.slots, at).transform);
    assert at < |before| ==> !Foreign(before[at], 1 - g.principal);
    assert forall i :: 0 <= i < |st.slots| && i != at ==> r.slots[i] == st.slots[i];
    assert r.slots[at].entity.None?;
  }

  /** Every admitted operation keeps what the guard keeps. */
  lemma StepGuarded(cx: Context, before: seq<Slot>, st: Staging, op: Operation, operation: nat)
    requires st.guard.Some? && Guards(before, st.slots, st.guard.value) && cx.maxSlots == SLOTS
    requires Admissible(op) && Guarded(st) && Step(cx, st, op, operation).Ok?
    ensures
      var r := Step(cx, st, op, operation).value;
      r.guard.Some? && r.guard.value.principal == st.guard.value.principal && Guards(before, r.slots, r.guard.value)
  {
    hide DoCreate, DoTransform, DoDelete, DoTags, DoReparent, Guards, Shaped;
    match op
    case Create(_, _) => CreateGuarded(cx, before, st, op, operation);
    case SetTransform(_, _) => TransformGuarded(cx, before, st, op, operation);
    case Delete(_) => DeleteGuarded(cx, before, st, op, operation);
  }

  lemma {:induction false} StepsGuarded(cx: Context, before: seq<Slot>, st: Staging, ops: seq<Operation>, n: nat)
    requires st.guard.Some? && Guards(before, st.slots, st.guard.value) && cx.maxSlots == SLOTS
    requires n <= |ops| && (forall k :: 0 <= k < |ops| ==> Admissible(ops[k])) && Guarded(st) && Steps(cx, st, ops, n).Ok?
    ensures
      var r := Steps(cx, st, ops, n).value;
      r.guard.Some? && r.guard.value.principal == st.guard.value.principal && Guards(before, r.slots, r.guard.value)
  {
    hide Step, Guards, Shaped;
    if n > 0 {
      StepsGuarded(cx, before, st, ops, n - 1);
      StepGuarded(cx, before, Steps(cx, st, ops, n - 1).value, ops[n - 1], n - 1);
    }
  }

  // Whole requests

  /** World and ledger agree, and the world satisfies the policy. */
  ghost predicate Governed(l: Ledger, s: Snapshot) {
    && ShapedLedger(l) && InStep(l, s) && Committed(s)
    && Balanced(l.sponsors, l.live, l.retained)
    && (forall i :: 0 <= i < |s.slots| ==> Flat(s.slots[i]))
    && Separate(s.slots, l.sponsors, seq(SLOTS, _ => false))
  }

  /** The ledger and the world after a request: a commit writes the guard's arrays back;
      a ledger that reached the accounting checks stays bound to its world. */
  function Concluded(pl: Platform, s: Snapshot, e: Envelope, a: Admission): (Ledger, Snapshot)
    requires Admitted(Some(a))
  {
    match Stage(pl, s, e, Some(a), None)
    case Err(_) => (if Begin(a, s, e).Ok? then a.ledger.(bound := true) else a.ledger, s)
    case Ok(staged) =>
      match staged.guard
      case None => (a.ledger, staged.after)
      case Some(g) => (Ledger(g.sponsors, g.live, g.retained, (a.ledger.revision + 1) % U64_LIMIT, true), staged.after)
  }

  lemma BeginGuards(a: Admission, s: Snapshot, e: Envelope)
    requires Governed(a.ledger, s) && Admitted(Some(a)) && Begin(a, s, e).Ok?
    ensures Guards(s.slots, s.slots, Begin(a, s, e).value)
    ensures forall k :: 0 <= k < |e.operations| ==> Admissible(e.operations[k])
    ensures s.maxSlots == SLOTS
  {
    hide InScope, Charged, Balanced, Committed, FieldSum;
    var g := Begin(a, s, e).value;
    var none := seq(SLOTS, _ => false);
    assert g.unplaced == none;
    forall k | 0 <= k < |e.operations|
      ensures Admissible(e.operations[k])
    {
      assert e.operations[k] in e.operations;
    }
  }

  lemma StagedGuarded(pl: Platform, s: Snapshot, e: Envelope, a: Admission)
    requires Governed(a.ledger, s) && Admitted(Some(a)) && Stage(pl, s, e, Some(a), None).Ok?
    ensures
      var staged := Stage(pl, s, e, Some(a), None).value;
      && staged.guard.Some? && staged.guard.value.principal == a.principal
      && Guards(s.slots, staged.after.slots, staged.guard.value)
      && forall i :: 0 <= i < SLOTS ==> !staged.guard.value.unplaced[i]
  {
    hide Steps, Guards, Begin, Governed, FormatVersion, Serialize;
    BeginGuards(a, s, e);
    var g := Begin(a, s, e).value;
    var cx := Context(s.worldId, s.seed, s.maxSlots, s.revision + 1, None);
    StepsGuarded(cx, s.slots, Staging(s.slots, map[], [], Some(g)), e.operations, |e.operations|);
  }

  /** Whatever a principal asks for: the policy goes on holding, the ledger stays in step with the world,
      and every cube in the other principal's region is exactly as it was. */
  lemma RequestGoverned(pl: Platform, s: Snapshot, e: Envelope, a: Admission)
    requires Governed(a.ledger, s) && Admitted(Some(a))
    ensures
      var (l, after) := Concluded(pl, s, e, a);
      && Governed(l, after) && Untouched(s.slots, after.slots, 1 - a.principal)
      && (Stage(pl, s, e, Some(a), None).Ok? ==> l.revision == a.ledger.revision + 1 == after.revision)
  {
    hide Stage, Begin, InScope, Charged, Balanced, Committed, Evolves, NewIdentities;
    if Stage(pl, s, e, Some(a), None).Ok? {
      var staged := Stage(pl, s, e, Some(a), None).value;
      StagedGuarded(pl, s, e, a);
      StageCommits(pl, s, e, Some(a), None);
      var g := staged.guard.value;
      assert g.unplaced == seq(SLOTS, _ => false);
      assert forall i :: 0 <= i < SLOTS ==> (g.live[i] <==> LiveSlot(staged.after.slots, i));
    }
  }

  /** In a governed world, each cube lies in the region of its sponsor with every one of its points. */
  lemma CubesInside(l: Ledger, s: Snapshot, i: nat, v: Vec3)
    requires Governed(l, s) && i < |s.slots| && s.slots[i].entity.Some? && InCube(v)
    ensures i < SLOTS && 0 <= l.sponsors[i] < PRINCIPALS
    ensures InRegion(GrantOf(l.sponsors[i]), PointOf(s.slots[i].entity.value.transform, v))
  {
    hide InScope, Charged, Balanced, Committed, PointOf, InCube, InRegion;
    ScopeExact(GrantOf(l.sponsors[i]), s.slots[i].entity.value.transform);
  }
}
