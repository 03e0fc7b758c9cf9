/** The staging guard as an object: its arrays change operation by operation. */
module GuardObject {
  import opened Prelude
  import opened Geometry
  import opened Commands
  import opened PolicyRules

  class StagingGuard {
    const principal: nat
    const sponsors: array<int>
    const live: array<bool>
    const unplaced: array<bool>
    const retained: array<nat>

    ghost predicate Valid()
      reads this, sponsors
    {
      && sponsors.Length == live.Length == unplaced.Length == SLOTS && retained.Length == PRINCIPALS && live != unplaced
      && principal < PRINCIPALS && forall i :: 0 <= i < SLOTS ==> sponsors[i] < PRINCIPALS
    }

    ghost function Now(): (g: Guard)
      requires Valid()
      reads this, sponsors, live, unplaced, retained
      ensures Shaped(g)
    {
      Guard(principal, sponsors[..], live[..], unplaced[..], retained[..])
    }

    /** A guard starts from the arrays of the ledger, with nothing unplaced. */
    constructor (g: Guard)
      requires Shaped(g)
      ensures Valid() && Now() == g
      ensures fresh(sponsors) && fresh(live) && fresh(unplaced) && fresh(retained)
    {
      principal := g.principal;
      sponsors := new int[SLOTS](i requires 0 <= i < SLOTS && |g.sponsors| == SLOTS => g.sponsors[i]);
      live := new bool[SLOTS](i requires 0 <= i < SLOTS && |g.live| == SLOTS => g.live[i]);
      unplaced := new bool[SLOTS](i requires 0 <= i < SLOTS && |g.unplaced| == SLOTS => g.unplaced[i]);
      retained := new nat[PRINCIPALS](i requires 0 <= i < PRINCIPALS && |g.retained| == PRINCIPALS => g.retained[i]);
      new;
      assert sponsors[..] == g.sponsors && live[..] == g.live && unplaced[..] == g.unplaced && retained[..] == g.retained;
    }

    /** Recomputes what each principal retains; a prefix of the batch that is too expensive is rejected. */
    method Account(operation: nat) returns (error: Option<Error>)
      requires Valid()
      modifies retained
      ensures Valid()
      ensures match PolicyRules.Account(old(Now()), operation)
        case Ok(g) => error == None && Now() == g
        case Err(e) => error == Some(e)
    {
      retained[0], retained[1] := 0, 0;
      var i := 0;
      while i < SLOTS
        invariant i <= SLOTS && Valid()
        invariant forall p :: 0 <= p < PRINCIPALS ==> retained[p] == Charged(sponsors[..], live[..], p, i)
      {
        if sponsors[i] >= 0 {
          retained[sponsors[i]] := retained[sponsors[i]] + SKELETON_CHARGE + if live[i] then CUBE_CHARGE else 0;
        }
        i := i + 1;
      }
      assert retained[..] == [retained[0], retained[1]];
      var p := 0;
      while p < PRINCIPALS
        invariant p <= PRINCIPALS
        invariant forall q :: 0 <= q < p ==> retained[q] <= GrantOf(q).retainedLimit
      {
        if retained[p] > GrantOf(p).retainedLimit {
          return Some(Error("BUDGET_EXCEEDED", Some(operation)));
        }
        p := p + 1;
      }
      error := None;
    }

    method Create(slot: nat, operation: nat) returns (error: Option<Error>)
      requires Valid()
      modifies sponsors, live, unplaced, retained
      ensures Valid()
      ensures match OnCreate(old(Now()), slot, operation)
        case Ok(g) => error == None && Now() == g
        case Err(e) => error == Some(e)
    {
      if slot >= SLOTS {
        return Some(Error("BUDGET_EXCEEDED", Some(operation)));
      }
      ghost var g := Now();
      sponsors[slot], live[slot], unplaced[slot] := principal, true, true;
      assert Now() == g.(sponsors := g.sponsors[slot := principal], live := g.live[slot := true], unplaced := g.unplaced[slot := true]);
      error := Account(operation);
    }

    method Transform(slot: nat, before: Geometry.Transform, after: Geometry.Transform, operation: nat) returns (error: Option<Error>)
      requires Valid()
      modifies unplaced
      ensures Valid()
      ensures match OnTransform(old(Now()), slot, before, after, operation)
        case Ok(g) => error == None && Now() == g
        case Err(e) => error == Some(e)
    {
      hide InScope;
      if slot >= SLOTS {
        return Some(Error("NOT_AUTHORIZED", Some(operation)));
      }
      if !unplaced[slot] && !InScope(GrantOf(principal), before) {
        return Some(Error("NOT_AUTHORIZED", Some(operation)));
      }
      if !InScope(GrantOf(principal), after) {
        return Some(Error("NOT_AUTHORIZED", Some(operation)));
      }
      unplaced[slot] := false;
      error := None;
    }

    method Erase(slot: nat, before: Geometry.Transform, operation: nat) returns (error: Option<Error>)
      requires Valid()
      modifies live, unplaced, retained
      ensures Valid()
      ensures match OnErase(old(Now()), slot, before, operation)
        case Ok(g) => error == None && Now() == g
        case Err(e) => error == Some(e)
    {
      hide InScope;
      if slot >= SLOTS {
        return Some(Error("NOT_AUTHORIZED", Some(operation)));
      }
      if !unplaced[slot] && !InScope(GrantOf(principal), before) {
        return Some(Error("NOT_AUTHORIZED", Some(operation)));
      }
      ghost var g := Now();
      live[slot], unplaced[slot] := false, false;
      assert Now() == g.(live := g.live[slot := false], unplaced := g.unplaced[slot := false]);
      error := Account(operation);
    }

    /** Every surviving new cube must have been placed. */
    method Finish() returns (error: Option<Error>)
      requires Valid()
      ensures error == match PolicyRules.Finish(Now()) case Ok(_) => None case Err(e) => Some(e)
    {
      var i := 0;
      while i < SLOTS
        invariant i <= SLOTS && forall k :: 0 <= k < i ==> !unplaced[k]
      {
        if unplaced[i] {
          return Some(Error("NOT_AUTHORIZED", None));
        }
        i := i + 1;
      }
      error := None;
    }
  }
}
