/** Admission leases and the ledger that issues them: resource use is charged once and refunded once. */
module Admissions {
  import opened Prelude
  import opened Texts
  import opened Worlds
  import opened Commands
  import opened PolicyRules
  import opened Batch
  import opened Lifetimes
  import opened Coordinator
  import opened Policy

  datatype Usage = Usage(working: seq<nat>, requests: seq<nat>, global: nat)

  /** A live lease: the declared bytes, and whether a guard has used it. */
  datatype Hold = Hold(bytes: nat, claimed: bool)

  predicate ShapedUsage(u: Usage) {
    |u.working| == |u.requests| == PRINCIPALS
  }

  function Refusal(u: Usage, globalLimit: nat, principal: nat, bytes: nat): Option<string>
    requires ShapedUsage(u)
  {
    if principal >= PRINCIPALS then Some("NOT_AUTHORIZED")
    else if bytes > BODY_LIMIT then Some("BUDGET_EXCEEDED")
    else if u.requests[principal] >= 1 || u.global >= globalLimit then Some("BUDGET_EXCEEDED")
    else if WorkingCharge(bytes) > GrantOf(principal).workingLimit - u.working[principal] then Some("BUDGET_EXCEEDED")
    else None
  }

  function Charge(u: Usage, principal: nat, bytes: nat): Usage
    requires ShapedUsage(u) && principal < PRINCIPALS
  {
    Usage(u.working[principal := u.working[principal] + WorkingCharge(bytes)],
          u.requests[principal := u.requests[principal] + 1], u.global + 1)
  }

  function HeldWork(h: Option<Hold>): nat {
    if h.Some? then WorkingCharge(h.value.bytes) else 0
  }

  function HeldCount(h: Option<Hold>): nat {
    if h.Some? then 1 else 0
  }

  /** Usage is exactly what the live leases hold, and within every limit. */
  predicate Tallied(u: Usage, holds: seq<Option<Hold>>, globalLimit: nat) {
    && ShapedUsage(u) && |holds| == PRINCIPALS
    && (forall p :: 0 <= p < PRINCIPALS ==>
          && u.working[p] == HeldWork(holds[p]) && u.requests[p] == HeldCount(holds[p])
          && u.working[p] <= GrantOf(p).workingLimit)
    && u.global == HeldCount(holds[0]) + HeldCount(holds[1]) <= globalLimit
  }

  lemma ChargeTallied(u: Usage, holds: seq<Option<Hold>>, globalLimit: nat, principal: nat, bytes: nat)
    requires Tallied(u, holds, globalLimit) && Refusal(u, globalLimit, principal, bytes).None?
    ensures Tallied(Charge(u, principal, bytes), holds[principal := Some(Hold(bytes, false))], globalLimit)
    ensures holds[principal].None?
  {
  }

  function Claimed(holds: seq<Option<Hold>>, principal: nat): seq<Option<Hold>>
    requires principal < |holds|
  {
    if holds[principal].None? then holds else holds[principal := Some(holds[principal].value.(claimed := true))]
  }

  lemma ClaimTallied(u: Usage, holds: seq<Option<Hold>>, globalLimit: nat, principal: nat)
    requires Tallied(u, holds, globalLimit) && principal < PRINCIPALS
    ensures Tallied(u, Claimed(holds, principal), globalLimit)
  {
  }

  /** The refund of a lease. */
  function Refund(u: Usage, principal: nat, bytes: nat): Usage
    requires ShapedUsage(u) && principal < PRINCIPALS
    requires u.working[principal] >= WorkingCharge(bytes) && u.requests[principal] >= 1 && u.global >= 1
  {
    Usage(u.working[principal := u.working[principal] - WorkingCharge(bytes)],
          u.requests[principal := u.requests[principal] - 1], u.global - 1)
  }

  lemma RefundCharge(u: Usage, principal: nat, bytes: nat)
    requires ShapedUsage(u) && principal < PRINCIPALS
    ensures ShapedUsage(Charge(u, principal, bytes)) && Refundable(Charge(u, principal, bytes), principal, bytes)
    ensures Refund(Charge(u, principal, bytes), principal, bytes) == u
  {
    var v := Refund(Charge(u, principal, bytes), principal, bytes);
    assert v.working == u.working && v.requests == u.requests;
  }

  lemma RefundTallied(u: Usage, holds: seq<Option<Hold>>, globalLimit: nat, principal: nat)
    requires Tallied(u, holds, globalLimit) && principal < PRINCIPALS && holds[principal].Some?
    ensures u.working[principal] >= WorkingCharge(holds[principal].value.bytes) && u.requests[principal] >= 1 && u.global >= 1
    ensures Tallied(Refund(u, principal, holds[principal].value.bytes), holds[principal := None], globalLimit)
  {
  }

  // Runs

  /** The world, the ledger in front of it, and the leases in use. */
  datatype Office = Office(world: Snapshot, ledger: Ledger, usage: Usage, holds: seq<Option<Hold>>)

  datatype Event =
    | Admit(principal: nat, bytes: nat)
    | Submit(principal: nat, e: Envelope)
    | Release(principal: nat)

  const UNUSED := Usage([0, 0], [0, 0], 0)

  function Opened(): Office {
    Office(Fresh(WORKSHOP, 7, SLOTS), Ledger(seq(SLOTS, _ => -1), seq(SLOTS, _ => false), [0, 0], 0, false), UNUSED, [None, None])
  }

  predicate Shapes(o: Office) {
    ShapedUsage(o.usage) && |o.holds| == PRINCIPALS && ShapedLedger(o.ledger)
  }

  /** A guard made from a lease can be used once. */
  function LeaseAdmission(o: Office, principal: nat): Admission
    requires principal < PRINCIPALS == |o.holds| && o.holds[principal].Some?
  {
    var h := o.holds[principal].value;
    Admission(o.ledger, principal, h.bytes, !h.claimed, true)
  }

  function Turn(pl: Platform, globalLimit: nat, o: Office, event: Event): Office
    requires Shapes(o)
  {
    match event
    case Admit(p, bytes) =>
      if Refusal(o.usage, globalLimit, p, bytes).Some? then o
      else o.(usage := Charge(o.usage, p, bytes), holds := o.holds[p := Some(Hold(bytes, false))])
    case Submit(p, e) =>
      if p >= PRINCIPALS || o.holds[p].None? then o
      else
        var (l, after) := Concluded(pl, o.world, e, LeaseAdmission(o, p));
        o.(ledger := l, world := after, holds := o.holds[p := Some(o.holds[p].value.(claimed := true))])
    case Release(p) =>
      if p >= PRINCIPALS || o.holds[p].None? || !Refundable(o.usage, p, o.holds[p].value.bytes) then o
      else o.(usage := Refund(o.usage, p, o.holds[p].value.bytes), holds := o.holds[p := None])
  }

  /** The unsigned counters do not wrap. */
  predicate Refundable(u: Usage, principal: nat, bytes: nat)
    requires ShapedUsage(u) && principal < PRINCIPALS
  {
    u.working[principal] >= WorkingCharge(bytes) && u.requests[principal] >= 1 && u.global >= 1
  }

  ghost predicate Keeps(o: Office, globalLimit: nat) {
    Governed(o.ledger, o.world) && Tallied(o.usage, o.holds, globalLimit)
  }

  lemma OpenedKeeps(globalLimit: nat)
    ensures Keeps(Opened(), globalLimit)
  {
    hide Identifier, InScope;
    var o := Opened();
    Widths();
    assert Identifier(WORKSHOP, 128) by {
      WorkshopNamed();
    }
    FreshCommitted(WORKSHOP, 7, SLOTS);
    forall p | 0 <= p < PRINCIPALS
      ensures Charged(o.ledger.sponsors, o.ledger.live, p, SLOTS) == 0
    {
      NothingCharged(o.ledger.sponsors, o.ledger.live, p, SLOTS);
    }
  }

  lemma WorkshopNamed()
    ensures Identifier(WORKSHOP, 128)
  {
    assert WORKSHOP == [0x77, 0x6F, 0x72, 0x6B, 0x73, 0x68, 0x6F, 0x70];
  }

  lemma {:induction false} NothingCharged(sponsors: seq<int>, live: seq<bool>, p: nat, n: nat)
    requires n <= |sponsors| == |live| && forall i :: 0 <= i < n ==> sponsors[i] < 0
    ensures Charged(sponsors, live, p, n) == 0
  {
    if n > 0 {
      NothingCharged(sponsors, live, p, n - 1);
    }
  }

  /** Every event keeps the policy and the tally; a request by one principal leaves the other's cubes alone;
      and a refund is always possible. */
  lemma TurnKeeps(pl: Platform, globalLimit: nat, o: Office, event: Event)
    requires Keeps(o, globalLimit)
    ensures Shapes(o) && Keeps(Turn(pl, globalLimit, o, event), globalLimit)
    ensures event.Submit? && event.principal < PRINCIPALS ==>
      Untouched(o.world.slots, Turn(pl, globalLimit, o, event).world.slots, 1 - event.principal)
    ensures !event.Submit? ==> Turn(pl, globalLimit, o, event).world == o.world
    ensures event.Release? && event.principal < PRINCIPALS ==> Turn(pl, globalLimit, o, event).holds[event.principal].None?
  {
    hide Concluded, Committed, InStep, Balanced, Separate, InScope;
    match event
    case Admit(p, bytes) =>
      if Refusal(o.usage, globalLimit, p, bytes).None? {
        ChargeTallied(o.usage, o.holds, globalLimit, p, bytes);
      }
    case Submit(p, e) =>
      if p < PRINCIPALS {
        if o.holds[p].Some? {
          RequestGoverned(pl, o.world, e, LeaseAdmission(o, p));
        }
      }
    case Release(p) =>
      if p < PRINCIPALS && o.holds[p].Some? {
        RefundTallied(o.usage, o.holds, globalLimit, p);
      }
  }

  /** The state after the first `n` events. */
  ghost predicate Run(pl: Platform, globalLimit: nat, states: seq<Office>, events: seq<Event>) {
    && |states| == |events| + 1 && states[0] == Opened()
    && forall k :: 0 <= k < |events| ==> Shapes(states[k]) && states[k + 1] == Turn(pl, globalLimit, states[k], events[k])
  }

  /** In every run the policy holds at every point, and the ledger charges exactly the live leases. */
  lemma {:induction false} RunKeeps(pl: Platform, globalLimit: nat, states: seq<Office>, events: seq<Event>, n: nat)
    requires Run(pl, globalLimit, states, events) && n <= |events|
    ensures Keeps(states[n], globalLimit)
    ensures states[n].holds == [None, None] ==> states[n].usage == UNUSED
  {
    hide Governed, Turn;
    if n == 0 {
      OpenedKeeps(globalLimit);
    } else {
      RunKeeps(pl, globalLimit, states, events, n - 1);
      TurnKeeps(pl, globalLimit, states[n - 1], events[n - 1]);
    }
    if states[n].holds == [None, None] {
      assert states[n].usage.working == [0, 0] && states[n].usage.requests == [0, 0];
    }
  }

  // The ledger as an object

  /** An admission; moving it hands the refund on, and it is refunded once. */
  class Lease {
    var ledger: PolicyLedger?
    const principal: nat
    const bytes: nat
    var claimed: bool

    constructor (ledger: PolicyLedger, principal: nat, bytes: nat, claimed: bool)
      ensures this.ledger == ledger && this.principal == principal && this.bytes == bytes && this.claimed == claimed
    {
      this.ledger, this.principal, this.bytes, this.claimed := ledger, principal, bytes, claimed;
    }
  }

  class PolicyLedger {
    const globalLimit: nat
    const sponsors: array<int>
    const live: array<bool>
    const retained: array<nat>
    const working: array<nat>
    const requests: array<nat>
    var global: nat
    var revision: u64
    var world: World?
    ghost var holders: seq<Lease?>

    ghost predicate Shaped()
      reads this
    {
      && sponsors.Length == live.Length == SLOTS && retained.Length == working.Length == requests.Length == PRINCIPALS
      && retained != working && retained != requests && working != requests && |holders| == PRINCIPALS
    }

    ghost function Leases(): set<Lease>
      reads this
    {
      set p | 0 <= p < |holders| && holders[p] != null :: holders[p]
    }

    ghost function Holding(p: nat): Option<Hold>
      requires p < |holders|
      reads this, Leases()
    {
      var lease := holders[p];
      if lease == null then None else (assert lease in Leases(); Some(Hold(lease.bytes, lease.claimed)))
    }

    ghost function Uses(): Usage
      requires Shaped()
      reads this, working, requests
    {
      Usage(working[..], requests[..], global)
    }

    ghost function Book(): Ledger
      requires Shaped()
      reads this, sponsors, live, retained
    {
      Ledger(sponsors[..], live[..], retained[..], revision, world != null)
    }

    ghost predicate Valid()
      reads this, working, requests, Leases()
    {
      && Shaped()
      && (forall p :: 0 <= p < PRINCIPALS && holders[p] != null ==>
            holders[p] in Leases() && holders[p].ledger == this && holders[p].principal == p)
      && Tallied(Uses(), [Holding(0), Holding(1)], globalLimit)
    }

    constructor (globalLimit: nat)
      requires 1 <= globalLimit <= 2
      ensures Valid() && this.globalLimit == globalLimit && holders == [null, null] && world == null
      ensures fresh(sponsors) && fresh(live) && fresh(retained) && fresh(working) && fresh(requests)
      ensures Book() == Opened().ledger && Uses() == UNUSED
    {
      this.globalLimit := globalLimit;
      sponsors := new int[SLOTS](_ => -1);
      live := new bool[SLOTS](_ => false);
      retained := new nat[PRINCIPALS](_ => 0);
      working := new nat[PRINCIPALS](_ => 0);
      requests := new nat[PRINCIPALS](_ => 0);
      global, revision, world, holders := 0, 0, null, [null, null];
      new;
      assert sponsors[..] == seq(SLOTS, _ => -1) && live[..] == seq(SLOTS, _ => false);
      assert retained[..] == [0, 0] && working[..] == [0, 0] && requests[..] == [0, 0];
    }

    /** Issues a lease, unless a limit would be exceeded. */
    method Admit(principal: nat, bytes: nat) returns (r: Result<Lease, string>)
      requires Valid()
      modifies this`global, this`holders, working, requests
      ensures Valid()
      ensures match Refusal(old(Uses()), globalLimit, principal, bytes)
        case Some(code) => r == Err(code) && Uses() == old(Uses()) && holders == old(holders)
        case None =>
          && r.Ok? && fresh(r.value) && r.value.bytes == bytes && !r.value.claimed
          && Uses() == Charge(old(Uses()), principal, bytes) && holders == old(holders)[principal := r.value]
    {
      ghost var u, holds := Uses(), [Holding(0), Holding(1)];
      if principal >= PRINCIPALS {
        return Err("NOT_AUTHORIZED");
      }
      if bytes > BODY_LIMIT {
        return Err("BUDGET_EXCEEDED");
      }
      var charge := WorkingCharge(bytes);
      if requests[principal] >= 1 || global >= globalLimit {
        return Err("BUDGET_EXCEEDED");
      }
      if charge > GrantOf(principal).workingLimit - working[principal] {
        return Err("BUDGET_EXCEEDED");
      }
      ChargeTallied(u, holds, globalLimit, principal, bytes);
      var lease := new Lease(this, principal, bytes, false);
      working[principal] := working[principal] + charge;
      requests[principal] := requests[principal] + 1;
      global := global + 1;
      holders := holders[principal := lease];
      assert Uses() == Charge(u, principal, bytes);
      assert [Holding(0), Holding(1)] == holds[principal := Some(Hold(bytes, false))];
      r := Ok(lease);
    }

    /** Moving a lease: the new one carries the refund, the old one is spent. */
    method Move(lease: Lease) returns (moved: Lease)
      requires Valid() && lease in Leases()
      modifies this`holders, lease
      ensures Valid() && fresh(moved) && lease.ledger == null
      ensures Uses() == old(Uses()) && holders == old(holders)[lease.principal := moved]
      ensures moved.principal == lease.principal && moved.bytes == lease.bytes && moved.claimed == old(lease.claimed)
    {
      ghost var holds := [Holding(0), Holding(1)];
      moved := new Lease(this, lease.principal, lease.bytes, lease.claimed);
      holders := holders[lease.principal := moved];
      lease.ledger := null;
      assert [Holding(0), Holding(1)] == holds;
    }

    /** The end of a lease: a spent one changes nothing, a live one is refunded exactly. */
    method Release(lease: Lease)
      requires Valid() && (lease.ledger == null || lease in Leases())
      modifies this`global, this`holders, working, requests, lease
      ensures Valid() && lease.ledger == null
      ensures
        if old(lease.ledger) == null then
          Uses() == old(Uses()) && holders == old(holders)
        else
          && lease.principal < PRINCIPALS && Refundable(old(Uses()), lease.principal, lease.bytes)
          && Uses() == Refund(old(Uses()), lease.principal, lease.bytes) && holders == old(holders)[lease.principal := null]
    {
      if lease.ledger == null {
        return;
      }
      ghost var u, holds := Uses(), [Holding(0), Holding(1)];
      var p := lease.principal;
      RefundTallied(u, holds, globalLimit, p);
      working[p] := working[p] - WorkingCharge(lease.bytes);
      requests[p] := requests[p] - 1;
      global := global - 1;
      holders := holders[p := null];
      lease.ledger := null;
      assert Uses() == Refund(u, p, lease.bytes);
      assert [Holding(0), Holding(1)] == holds[p := None];
    }

    /** A request under a lease: the first guard made from it decides, and writes back what it staged. */
    method Execute(pl: Platform, target: World, e: Envelope, lease: Lease) returns (receipt: Receipt)
      requires Valid() && Governed(Book(), target.state) && lease in Leases()
      modifies this`revision, this`world, sponsors, live, retained, target, lease`claimed
      ensures Valid() && Uses() == old(Uses()) && lease.claimed
      ensures
        var a := Admission(old(Book()), lease.principal, lease.bytes, !old(lease.claimed), old(world) == null || old(world) == target);
        && ShapedLedger(a.ledger) && lease.principal < PRINCIPALS
        && (Book(), target.state) == Concluded(pl, old(target.state), e, a)
    {
      hide Governed, Stage, FieldBytes, Begin, Tallied, Committed, CommittedReceipt, RejectedReceipt, Concluded;
      ghost var book, before := Book(), target.state;
      ghost var u, holds := Uses(), [Holding(0), Holding(1)];
      GovernedShapes(book, before);
      ClaimTallied(u, holds, globalLimit, lease.principal);
      var admission := Admission(Ledger(sponsors[..], live[..], retained[..], revision, world != null),
                                 lease.principal, lease.bytes, !lease.claimed, world == null || world == target);
      lease.claimed := true;
      if Begin(admission, target.state, e).Ok? {
        world := target;
      }
      var guard;
      receipt, guard := Coordinator.Apply(pl, target, e, Some(admission), None);
      GuardFromStage(pl, before, e, admission);
      if guard.Some? {
        StoreGuard(guard.value);
        revision := (revision + 1) % U64_LIMIT;
      }
      assert Uses() == u;
      assert [Holding(0), Holding(1)] == Claimed(holds, lease.principal);
    }

    /** A whole request of the trusted host: bounded, admitted, applied under the guard, refunded. */
    method Apply(pl: Platform, target: World, e: Envelope, principal: nat) returns (receipt: Receipt)
      requires Valid() && Governed(Book(), target.state)
      modifies this, sponsors, live, retained, working, requests, target
      ensures Valid() && Uses() == old(Uses()) && holders == old(holders)
      ensures Governed(Book(), target.state)
      ensures
        var bytes := FieldBytes(e);
        if bytes.Err? || Refusal(old(Uses()), globalLimit, principal, bytes.value).Some? then
          && target.state == old(target.state) && Book() == old(Book()) && receipt.status == REJECTED
        else
          var a := Admission(old(Book()), principal, bytes.value, true, old(world) == null || old(world) == target);
          && ShapedLedger(a.ledger) && principal < PRINCIPALS
          && (Book(), target.state) == Concluded(pl, old(target.state), e, a)
          && Untouched(old(target.state).slots, target.state.slots, 1 - principal)
    {
      hide Governed, Stage, FieldBytes, Begin, Tallied, Untouched, Concluded, Refusal, WorkingCharge;
      ghost var u, held, book, before := Uses(), holders, Book(), target.state;
      ghost var holds := [Holding(0), Holding(1)];
      var bytes := FieldBytes(e);
      if bytes.Err? {
        return RejectedReceipt(e, revision, bytes.error, true);
      }
      AdmittedFree(u, holds, globalLimit, principal, bytes.value);
      var admitted := Admit(principal, bytes.value);
      if admitted.Err? {
        return RejectedReceipt(e, revision, Error(admitted.error, None), true);
      }
      var lease := admitted.value;
      assert holders[principal] == lease && held[principal] == null;
      GovernedShapes(book, before);
      RequestGoverned(pl, before, e, Admission(book, principal, bytes.value, true, world == null || world == target));
      receipt := ExecuteOnce(pl, target, e, lease, u);
      assert holders == held;
    }

    /** Executes under a new lease and gives back its charge. */
    method ExecuteOnce(pl: Platform, target: World, e: Envelope, lease: Lease, ghost u: Usage) returns (receipt: Receipt)
      requires Valid() && Governed(Book(), target.state) && lease in Leases() && lease.ledger == this && !lease.claimed
      requires ShapedUsage(u) && lease.principal < PRINCIPALS && Uses() == Charge(u, lease.principal, lease.bytes)
      modifies this`revision, this`world, this`global, this`holders, sponsors, live, retained, working, requests, target, lease
      ensures Valid() && Uses() == u && holders == old(holders)[lease.principal := null]
      ensures
        var a := Admission(old(Book()), lease.principal, lease.bytes, true, old(world) == null || old(world) == target);
        && ShapedLedger(a.ledger) && lease.principal < PRINCIPALS
        && (Book(), target.state) == Concluded(pl, old(target.state), e, a)
    {
      hide Governed, Tallied, Concluded, Charge, Refund;
      receipt := Execute(pl, target, e, lease);
      RefundCharge(u, lease.principal, lease.bytes);
      Release(lease);
    }

    /** The arrays of a finished guard become those of the ledger. */
    method StoreGuard(g: Guard)
      requires Shaped() && PolicyRules.Shaped(g)
      modifies sponsors, live, retained
      ensures sponsors[..] == g.sponsors && live[..] == g.live && retained[..] == g.retained
    {
      forall i | 0 <= i < SLOTS {
        sponsors[i] := g.sponsors[i];
      }
      forall i | 0 <= i < SLOTS {
        live[i] := g.live[i];
      }
      forall p | 0 <= p < PRINCIPALS {
        retained[p] := g.retained[p];
      }
    }
  }

  lemma GovernedShapes(l: Ledger, s: Snapshot)
    requires Governed(l, s)
    ensures ShapedLedger(l) && Committed(s)
  {
    hide Committed;
  }

  lemma AdmittedFree(u: Usage, holds: seq<Option<Hold>>, globalLimit: nat, principal: nat, bytes: nat)
    requires Tallied(u, holds, globalLimit)
    ensures Refusal(u, globalLimit, principal, bytes).None? ==> principal < PRINCIPALS && holds[principal].None?
  {
  }

  /** A committed batch hands its guard back. */
  lemma GuardFromStage(pl: Platform, s: Snapshot, e: Envelope, a: Admission)
    requires Governed(a.ledger, s) && Admitted(Some(a))
    ensures Stage(pl, s, e, Some(a), None).Ok? ==>
      var g := Stage(pl, s, e, Some(a), None).value.guard;
      g.Some? && PolicyRules.Shaped(g.value) && Begin(a, s, e).Ok?
    ensures match Stage(pl, s, e, Some(a), None)
      case Err(_) => Concluded(pl, s, e, a) == (if Begin(a, s, e).Ok? then a.ledger.(bound := true) else a.ledger, s)
      case Ok(staged) =>
        staged.guard.Some? &&
        Concluded(pl, s, e, a) == (Ledger(staged.guard.value.sponsors, staged.guard.value.live, staged.guard.value.retained,
                                          (a.ledger.revision + 1) % U64_LIMIT, true), staged.after)
  {
    hide Stage, Governed, Begin;
    BegunFirst(pl, s, e, a);
    if Stage(pl, s, e, Some(a), None).Ok? {
      StagedGuarded(pl, s, e, a);
    }
  }

  lemma BegunFirst(pl: Platform, s: Snapshot, e: Envelope, a: Admission)
    requires Admitted(Some(a))
    ensures Stage(pl, s, e, Some(a), None).Ok? ==> Begin(a, s, e).Ok?
  {
    hide Steps, Close, Headers, Begin;
  }
}
