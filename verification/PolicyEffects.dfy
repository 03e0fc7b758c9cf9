/** What the policy lets a principal do, exactly. */
module PolicyEffects {
  import opened Prelude
  import opened Texts
  import opened Geometry
  import opened Worlds
  import opened Commands
  import opened PolicyRules
  import opened Batch
  import opened Policy
  import opened Admissions

  // Charges

  /** How many of the first `n` slots are sponsored by a principal, and how many of these hold a cube. */
  function Sponsored(sponsors: seq<int>, principal: nat, n: nat): set<nat>
    requires n <= |sponsors|
  {
    set i | 0 <= i < n && sponsors[i] == principal
  }

  function Cubes(sponsors: seq<int>, live: seq<bool>, principal: nat, n: nat): set<nat>
    requires n <= |sponsors| == |live|
  {
    set i | 0 <= i < n && sponsors[i] == principal && live[i]
  }

  /** A principal is charged for every slot it sponsors, and again for every cube in one. */
  lemma {:induction false} ChargedExact(sponsors: seq<int>, live: seq<bool>, principal: nat, n: nat)
    requires n <= |sponsors| == |live|
    ensures Charged(sponsors, live, principal, n) ==
      SKELETON_CHARGE * |Sponsored(sponsors, principal, n)| + CUBE_CHARGE * |Cubes(sponsors, live, principal, n)|
  {
    if n > 0 {
      ChargedExact(sponsors, live, principal, n - 1);
      var k := n - 1;
      assert Sponsored(sponsors, principal, n) == Sponsored(sponsors, principal, k) + if sponsors[k] == principal then {k} else {};
      assert Cubes(sponsors, live, principal, n) == Cubes(sponsors, live, principal, k) + if sponsors[k] == principal && live[k] then {k} else {};
    }
  }

  lemma {:induction false} ChargedLess(a: seq<int>, x: seq<bool>, b: seq<int>, y: seq<bool>, principal: nat, n: nat)
    requires n <= |a| == |x| == |b| == |y|
    requires forall i :: 0 <= i < n && a[i] == principal ==> b[i] == principal && (x[i] ==> y[i])
    ensures Charged(a, x, principal, n) <= Charged(b, y, principal, n)
  {
    if n > 0 {
      ChargedLess(a, x, b, y, principal, n - 1);
    }
  }

  // The guard

  /** All points of the cube lie in the region of the principal. */
  ghost predicate Within(principal: nat, t: Transform)
    requires principal < PRINCIPALS
  {
    forall v :: InCube(v) ==> InRegion(GrantOf(principal), PointOf(t, v))
  }

  /** Creating is allowed exactly while the principal can still be charged for the slot and its cube. */
  lemma CreateAllowed(before: seq<Slot>, slots: seq<Slot>, g: Guard, slot: nat, operation: nat)
    requires Guards(before, slots, g)
    ensures OnCreate(g, slot, operation).Ok? <==>
      && slot < SLOTS
      && Charged(g.sponsors[slot := g.principal], g.live[slot := true], g.principal, SLOTS) <= GrantOf(g.principal).retainedLimit
    ensures OnCreate(g, slot, operation).Ok? ==>
      var r := OnCreate(g, slot, operation).value;
      && r.principal == g.principal && r.sponsors == g.sponsors[slot := g.principal] && r.live == g.live[slot := true]
      && r.unplaced == g.unplaced[slot := true]
  {
    hide Charged;
    if slot < SLOTS {
      var other := 1 - g.principal;
      ChargedLess(g.sponsors[slot := g.principal], g.live[slot := true], g.sponsors, g.live, other, SLOTS);
      assert Balanced(g.sponsors, g.live, g.retained);
    }
  }

  /** Moving is allowed exactly for the sponsor of the cube, into its own region. */
  lemma TransformAllowed(before: seq<Slot>, slots: seq<Slot>, g: Guard, slot: nat, after: Transform, operation: nat)
    requires Guards(before, slots, g) && LiveSlot(slots, slot) && slot < SLOTS
    ensures OnTransform(g, slot, slots[slot].entity.value.transform, after, operation).Ok? <==>
      g.sponsors[slot] == g.principal && Within(g.principal, after)
    ensures OnTransform(g, slot, slots[slot].entity.value.transform, after, operation).Ok? ==>
      OnTransform(g, slot, slots[slot].entity.value.transform, after, operation).value == g.(unplaced := g.unplaced[slot := false])
  {
    hide InScope, Charged, InCube, InRegion, PointOf, Balanced;
    ScopeExact(GrantOf(g.principal), after);
    SponsorInside(before, slots, g, slot);
  }

  /** A placed cube lies in the region of its sponsor only. */
  lemma SponsorInside(before: seq<Slot>, slots: seq<Slot>, g: Guard, slot: nat)
    requires Guards(before, slots, g) && LiveSlot(slots, slot) && slot < SLOTS
    ensures g.unplaced[slot] ==> g.sponsors[slot] == g.principal
    ensures !g.unplaced[slot] ==> (InScope(GrantOf(g.principal), slots[slot].entity.value.transform) <==> g.sponsors[slot] == g.principal)
  {
    hide InScope, Charged, Balanced;
    RegionsApart(slots[slot].entity.value.transform);
    assert slots[slot].entity.Some?;
  }

  /** Erasing is allowed exactly for the sponsor of the cube; it never fails for its cost. */
  lemma EraseAllowed(before: seq<Slot>, slots: seq<Slot>, g: Guard, slot: nat, operation: nat)
    requires Guards(before, slots, g) && LiveSlot(slots, slot) && slot < SLOTS
    ensures OnErase(g, slot, slots[slot].entity.value.transform, operation).Ok? <==> g.sponsors[slot] == g.principal
    ensures OnErase(g, slot, slots[slot].entity.value.transform, operation).Ok? ==>
      var r := OnErase(g, slot, slots[slot].entity.value.transform, operation).value;
      && r.principal == g.principal && r.sponsors == g.sponsors && r.live == g.live[slot := false] && r.unplaced == g.unplaced[slot := false]
  {
    hide InScope, Charged;
    SponsorInside(before, slots, g, slot);
    ChargedLess(g.sponsors, g.live[slot := false], g.sponsors, g.live, 0, SLOTS);
    ChargedLess(g.sponsors, g.live[slot := false], g.sponsors, g.live, 1, SLOTS);
    assert Balanced(g.sponsors, g.live, g.retained);
  }

  /** In a governed world a request is taken up exactly when its lease is unused, it is of the kinds and the size that were
      declared, and the ledger is not bound to another world. */
  lemma BeginExact(a: Admission, s: Snapshot, e: Envelope)
    requires a.principal < PRINCIPALS && ShapedLedger(a.ledger) && Governed(a.ledger, s)
    ensures Begin(a, s, e).Ok? <==>
      a.usable && FieldBytes(e).Ok? && FieldBytes(e).value <= a.bytes && (a.ledger.bound ==> a.sameWorld)
  {
    hide InScope, Charged, FieldBytes;
  }

  /** A ledger is bound to its world from the first request that is taken up on, whether that commits or not. */
  lemma BindsExact(pl: Platform, s: Snapshot, e: Envelope, a: Admission)
    requires Admitted(Some(a)) && Governed(a.ledger, s)
    ensures Concluded(pl, s, e, a).0.bound <==> a.ledger.bound || Begin(a, s, e).Ok?
    ensures Concluded(pl, s, e, a).1 == match Stage(pl, s, e, Some(a), None) case Ok(staged) => staged.after case Err(_) => s
  {
    GuardFromStage(pl, s, e, a);
    hide Steps, Begin, Close, Headers, Governed;
  }

  // Admission

  /** A lease is issued exactly when the principal holds none, the ledger has not issued all it may, and the declared size
      is within the bounds of a body and of the working limit. */
  lemma AdmitExact(u: Usage, holds: seq<Option<Hold>>, globalLimit: nat, principal: nat, bytes: nat)
    requires Tallied(u, holds, globalLimit)
    ensures Refusal(u, globalLimit, principal, bytes).None? <==>
      && principal < PRINCIPALS && bytes <= BODY_LIMIT && holds[principal].None?
      && HeldCount(holds[0]) + HeldCount(holds[1]) < globalLimit
      && WorkingCharge(bytes) <= GrantOf(principal).workingLimit
  {
  }
}
