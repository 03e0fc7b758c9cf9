/** What a reader is told: which cubes, in how many bytes, for how long. */
module Answers {
  import opened Prelude
  import opened Texts
  import opened Geometry
  import opened Worlds
  import opened Commands
  import opened PolicyRules
  import opened Lifetimes
  import opened Policy
  import opened Observe

  predicate InBounds(b: Bounds, p: Vec3) {
    && b.lower.x <= p.x <= b.upper.x && b.lower.y <= p.y <= b.upper.y && b.lower.z <= p.z <= b.upper.z
  }

  function Larger(a: real, b: real): real {
    if a < b then b else a
  }

  /** The test on the bounds holds exactly when the two boxes share a point. */
  lemma OverlapExact(a: Bounds, b: Bounds)
    requires ValidBounds(a) && ValidBounds(b)
    ensures Overlaps(a, b) <==> exists p :: InBounds(a, p) && InBounds(b, p)
  {
    if Overlaps(a, b) {
      var p := Vec3(Larger(a.lower.x, b.lower.x), Larger(a.lower.y, b.lower.y), Larger(a.lower.z, b.lower.z));
      assert InBounds(a, p) && InBounds(b, p);
    }
  }

  lemma ReachPositive(a: real, s: real)
    ensures Reach(a, s) >= 0.0
  {
    NonNegative(Abs(a), 0.5 * Abs(s));
  }

  lemma ExtentPositive(row: Vec3, s: Vec3)
    ensures Extent(row, s) >= 0.0
  {
    hide Reach;
    ReachPositive(row.x, s.x);
    ReachPositive(row.y, s.y);
    ReachPositive(row.z, s.z);
  }

  lemma BoxNonempty(t: Transform)
    ensures ValidBounds(BoxOf(t))
  {
    hide Extent;
    ExtentPositive(RowX(t.rotation), t.scale);
    ExtentPositive(RowY(t.rotation), t.scale);
    ExtentPositive(RowZ(t.rotation), t.scale);
  }

  /** What the grant lets be seen: a live cube that is named by it, all of whose points lie in its region. */
  ghost predicate Granted(g: ReadGrant, slot: Slot) {
    && Live(slot) && (g.wholeWorld || ReadIdentity(slot.uuid, slot.generation) in g.entities)
    && (g.region.Some? ==>
          forall v :: InCube(v) ==> InBounds(g.region.value, PointOf(slot.entity.value.transform, v)))
  }

  /** What the query asks for: cubes with all its tags whose box shares a point with its own. */
  ghost predicate Asked(q: Query, slot: Slot)
    requires slot.entity.Some?
  {
    && (forall t :: t in q.allTags ==> t in slot.entity.value.tags)
    && (q.intersects.Some? ==>
          exists p :: InBounds(q.intersects.value, p) && InBounds(BoxOf(slot.entity.value.transform), p))
  }

  /** A slot is shown exactly when the grant lets it be seen and the query asks for it. */
  lemma ShownMeans(g: ReadGrant, q: Query, slot: Slot)
    requires ValidQuery(q)
    ensures Shown(g, q, slot) <==> Granted(g, slot) && Asked(q, slot)
  {
    hide BoxOf, PointOf, InCube, Inside, Overlaps;
    if Live(slot) {
      var t := slot.entity.value.transform;
      BoxNonempty(t);
      if g.region.Some? {
        RegionShows(g.region.value, t);
      }
      if q.intersects.Some? {
        OverlapExact(q.intersects.value, BoxOf(t));
      }
    }
  }

  lemma RegionShows(region: Bounds, t: Transform)
    ensures Inside(region, BoxOf(t)) <==> forall v :: InCube(v) ==> InBounds(region, PointOf(t, v))
  {
    hide BoxOf, PointOf, InCube, Inside;
    RegionExact(region, t);
    assert forall p :: InRegion(Grant(region.lower, region.upper, 0, 0), p) == InBounds(region, p);
  }

  // Pages

  /** What a query captures: the rows of what is shown, both byte limits and both lifetimes. */
  lemma CapturedExact(printer: Printer, g: ReadGrant, q: Query, s: Snapshot, expires: nat, now: nat)
    ensures
      var (r, rows) := (Captured(printer, g, q, s, expires, now), RowsOf(printer, g, q, s.slots, |s.slots|));
      && (r.Ok? <==> |printer.prefix(s.worldId, s.revision)| + Total(rows, |rows|) <= g.retainedBytes)
      && (r.Ok? ==>
            && r.value.rows == rows && r.value.prefix == printer.prefix(s.worldId, s.revision)
            && r.value.pageSize == q.pageSize
            && r.value.responseBytes <= q.responseBytes && r.value.responseBytes <= g.responseBytes
            && (r.value.responseBytes == q.responseBytes || r.value.responseBytes == g.responseBytes)
            && r.value.deadline <= expires && r.value.deadline <= now + g.snapshotLifetime
            && (r.value.deadline == expires || r.value.deadline == now + g.snapshotLifetime))
  {
    hide RowsOf, Total;
  }

  /** A page of the rows of a query on a world, from some row on: whole rows in their order, within the page size and both
      byte limits, and as many of them as these allow. */
  predicate PageOf(printer: Printer, g: ReadGrant, q: Query, s: Snapshot, from: nat, page: Page) {
    var (prefix, rows) := (printer.prefix(s.worldId, s.revision), RowsOf(printer, g, q, s.slots, |s.slots|));
    var upto := if page.next.Some? then page.next.value else |rows|;
    && from <= upto <= |rows| && page.json == prefix + Joined(rows, from, upto) + Suffix(page.next.Some?)
    && |page.json| <= g.responseBytes && |page.json| <= q.responseBytes && upto - from <= q.pageSize
    && (page.next.Some? ==> from < upto < |rows|)
    && forall k :: upto < k <= |rows| && k - from <= q.pageSize ==>
         var length := |prefix + Joined(rows, from, k) + Suffix(k < |rows|)|;
         length > g.responseBytes || length > q.responseBytes
  }

  lemma PageWithin(printer: Printer, g: ReadGrant, q: Query, s: Snapshot, expires: nat, now: nat, from: nat)
    requires ValidQuery(q) && Captured(printer, g, q, s, expires, now).Ok?
    requires from <= |RowsOf(printer, g, q, s.slots, |s.slots|)|
    ensures |Captured(printer, g, q, s, expires, now).value.rows| == |RowsOf(printer, g, q, s.slots, |s.slots|)|
    ensures
      var page := PageAt(Captured(printer, g, q, s, expires, now).value, from);
      page.Ok? ==> PageOf(printer, g, q, s, from, page.value)
  {
    hide RowsOf, Captured, Joined, Suffix, PageAt, PageEnd;
    CapturedExact(printer, g, q, s, expires, now);
    var d := Captured(printer, g, q, s, expires, now).value;
    PageExact(d, from);
    if PageAt(d, from).Ok? {
      var upto := PageEnd(d, from, from);
      forall k | upto < k <= |d.rows| && k - from <= q.pageSize
        ensures |d.prefix + Joined(d.rows, from, k) + Suffix(k < |d.rows|)| > d.responseBytes
      {
        assert !Fits(d, from, k);
      }
    }
  }

  /** Every page a session answers, at once or to a cursor after whatever else happened, is such a page of the world as it
      was when the query was asked. */
  lemma {:induction false} AnswersWithin(printer: Printer, g: ReadGrant, expires: nat, w: Watched, q: Query, start: (nat, nat, nat),
                      calls: seq<Call>, offset: nat, times: (nat, nat))
    requires Started(printer, g, w.state, q, w.world, expires, start).page.Ok?
    requires times.0 <= times.1 && forall k :: 0 <= k < |calls| ==> NoLater(calls[k], times.0)
    ensures PageOf(printer, g, q, w.world, 0, Started(printer, g, w.state, q, w.world, expires, start).page.value)
    ensures
      var x := Started(printer, g, w.state, q, w.world, expires, start).state;
      var y := AfterCalls(printer, g, expires, w.(state := x), calls, |calls|).state;
      var page := Continued(y, true, x.serial, offset, expires, times).page;
      page.Ok? ==> PageOf(printer, g, q, w.world, offset, page.value)
  {
    RereadSame(printer, g, expires, w, q, start, calls, offset, times);
    StartedPage(printer, g, expires, w, q, start);
    hide RowsOf, Captured, AfterCalls, Undisturbed, Continued, Started, PageOf, ValidQuery, PageAt, NoLater;
    CapturedExact(printer, g, q, w.world, expires, start.1);
    PageWithin(printer, g, q, w.world, expires, start.1, 0);
    if offset <= |RowsOf(printer, g, q, w.world.slots, |w.world.slots|)| {
      PageWithin(printer, g, q, w.world, expires, start.1, offset);
    }
  }

  lemma StartedPage(printer: Printer, g: ReadGrant, expires: nat, w: Watched, q: Query, start: (nat, nat, nat))
    requires Started(printer, g, w.state, q, w.world, expires, start).page.Ok?
    ensures ValidQuery(q) && Captured(printer, g, q, w.world, expires, start.1).Ok?
    ensures Started(printer, g, w.state, q, w.world, expires, start).page == PageAt(Captured(printer, g, q, w.world, expires, start.1).value, 0)
  {
    hide ValidQuery, Captured, PageAt;
  }

  /** When a query is answered: the session lives, the query is valid, what it shows fits the retention limit, its first
      page can be made, and its lifetime has not passed while it was. */
  lemma StartExact(printer: Printer, g: ReadGrant, expires: nat, x: State, q: Query, s: Snapshot, times: (nat, nat, nat))
    requires x.serial < U64_MAX
    ensures
      var a := Started(printer, g, x, q, s, expires, times);
      var (prefix, rows) := (printer.prefix(s.worldId, s.revision), RowsOf(printer, g, q, s.slots, |s.slots|));
      var first := if rows == [] then 0 else 1;
      var length := |prefix + Joined(rows, 0, first) + Suffix(first < |rows|)|;
      && (a.page.Ok? <==>
            && !x.closed && times.0 < expires && ValidQuery(q)
            && |prefix| + Total(rows, |rows|) <= g.retainedBytes
            && length <= g.responseBytes && length <= q.responseBytes
            && times.2 < expires && times.2 < times.1 + g.snapshotLifetime)
      && (a.page.Ok? ==> a.state.serial == x.serial + 1 && a.state.retained.Some? && !a.state.closed && a.owned)
      && (!a.page.Ok? ==> a.state.serial == x.serial && (a.state.retained == x.retained || a.state.retained == None))
  {
    hide RowsOf, Joined, Suffix, ValidQuery, Total;
    CapturedExact(printer, g, q, s, expires, times.1);
    var captured := Captured(printer, g, q, s, expires, times.1);
    if captured.Ok? {
      PagePossible(captured.value, q);
    }
    hide Captured, PageAt;
  }

  lemma PagePossible(d: Retained, q: Query)
    requires d.pageSize == q.pageSize
    ensures
      var first := if d.rows == [] then 0 else 1;
      var length := |d.prefix + Joined(d.rows, 0, first) + Suffix(first < |d.rows|)|;
      ValidQuery(q) ==> (PageAt(d, 0).Ok? <==> length <= d.responseBytes)
  {
    hide Joined, Suffix, PageAt;
    if ValidQuery(q) {
      PageExact(d, 0);
    }
  }
}
