/** A paged read session: greedy pages under an exact byte budget, over a snapshot retained for its cursors. */
module Observe {
  import opened Prelude
  import opened Texts
  import opened Geometry
  import opened Worlds
  import opened Commands
  import opened PolicyRules
  import opened Hierarchy
  import opened Lifetimes
  import opened Policy

  // What a query may see

  datatype Bounds = Bounds(lower: Vec3, upper: Vec3)
  datatype ReadIdentity = ReadIdentity(uuid: Text, generation: u64)

  datatype ReadGrant = ReadGrant(wholeWorld: bool, entities: seq<ReadIdentity>, region: Option<Bounds>,
                                 responseBytes: nat, retainedBytes: nat, lifetime: nat, snapshotLifetime: nat)

  datatype Query = Query(allTags: seq<Text>, intersects: Option<Bounds>, pageSize: nat, responseBytes: nat)

  /** How the session prints: the opening of a page, and one row. */
  datatype Printer = Printer(prefix: (Text, u64) -> Bytes, row: (Slot, Bounds) -> Bytes)

  predicate ValidBounds(b: Bounds) {
    b.lower.x <= b.upper.x && b.lower.y <= b.upper.y && b.lower.z <= b.upper.z
  }

  predicate ValidGrant(g: ReadGrant) {
    && |g.entities| <= 1024 && (g.wholeWorld ==> g.entities == [])
    && 1 <= g.responseBytes <= 4096 && 1 <= g.retainedBytes <= 1048576
    && 1 <= g.lifetime <= 300000 && 1 <= g.snapshotLifetime <= 30000
    && (g.region.Some? ==> ValidBounds(g.region.value))
    && forall i :: 0 <= i < |g.entities| ==> UuidShaped(g.entities[i].uuid) && g.entities[i].generation != 0
  }

  predicate ValidQuery(q: Query) {
    && |q.allTags| <= 4 && 1 <= q.pageSize <= 64 && 1 <= q.responseBytes <= 4096
    && (q.intersects.Some? ==> ValidBounds(q.intersects.value))
    && (forall i :: 0 <= i < |q.allTags| ==> Identifier(q.allTags[i], 32))
    && forall i, j :: 0 <= i < j < |q.allTags| ==> q.allTags[i] != q.allTags[j]
  }

  function Reach(a: real, s: real): real {
    Abs(a) * (0.5 * Abs(s))
  }

  function Extent(row: Vec3, s: Vec3): real {
    Reach(row.x, s.x) + Reach(row.y, s.y) + Reach(row.z, s.z)
  }

  function BoxOf(t: Transform): Bounds {
    var e := Vec3(Extent(RowX(t.rotation), t.scale), Extent(RowY(t.rotation), t.scale), Extent(RowZ(t.rotation), t.scale));
    Bounds(Minus(t.position, e), Add(t.position, e))
  }

  predicate Inside(outer: Bounds, inner: Bounds) {
    && outer.lower.x <= inner.lower.x && inner.upper.x <= outer.upper.x
    && outer.lower.y <= inner.lower.y && inner.upper.y <= outer.upper.y
    && outer.lower.z <= inner.lower.z && inner.upper.z <= outer.upper.z
  }

  predicate Overlaps(a: Bounds, b: Bounds) {
    && a.lower.x <= b.upper.x && b.lower.x <= a.upper.x
    && a.lower.y <= b.upper.y && b.lower.y <= a.upper.y
    && a.lower.z <= b.upper.z && b.lower.z <= a.upper.z
  }

  lemma HalfAbs(a: real, s: real)
    ensures Reach(a, s) == Half(a, s)
  {
    assert Abs(a * s) == Abs(a) * Abs(s) by {
      if a >= 0.0 && s >= 0.0 {
        NonNegative(a, s);
      } else if a >= 0.0 {
        NonNegative(a, -s);
        assert a * -s == -(a * s);
      } else if s >= 0.0 {
        NonNegative(-a, s);
        assert -a * s == -(a * s);
      } else {
        NonNegative(-a, -s);
        assert -a * -s == a * s;
      }
    }
    assert Abs(a) * (0.5 * Abs(s)) == Abs(a) * Abs(s) * 0.5;
  }

  lemma ExtentIsRadius(row: Vec3, s: Vec3)
    ensures Extent(row, s) == Radius(row, s)
  {
    hide Abs, Half, Term, Reach, Dot, Stretched;
    DotTerms(row, s, s);
    HalfAbs(row.x, s.x);
    HalfAbs(row.y, s.y);
    HalfAbs(row.z, s.z);
  }

  /** A granted region shows exactly the cubes all of whose points lie in it. */
  lemma RegionExact(region: Bounds, t: Transform)
    ensures Inside(region, BoxOf(t)) <==>
      forall v :: InCube(v) ==> InRegion(Grant(region.lower, region.upper, 0, 0), PointOf(t, v))
  {
    hide Extent, Radius, RowX, RowY, RowZ, PointOf, InCube, InRegion;
    ExtentIsRadius(RowX(t.rotation), t.scale);
    ExtentIsRadius(RowY(t.rotation), t.scale);
    ExtentIsRadius(RowZ(t.rotation), t.scale);
    ScopeExact(Grant(region.lower, region.upper, 0, 0), t);
  }

  predicate Permitted(g: ReadGrant, slot: Slot) {
    g.wholeWorld || exists k :: 0 <= k < |g.entities| && g.entities[k] == ReadIdentity(slot.uuid, slot.generation)
  }

  /** The slot appears in the answer. */
  predicate Shown(g: ReadGrant, q: Query, slot: Slot) {
    && Live(slot) && Permitted(g, slot)
    && var box := BoxOf(slot.entity.value.transform);
       && (g.region.Some? ==> Inside(g.region.value, box))
       && (forall i :: 0 <= i < |q.allTags| ==> q.allTags[i] in slot.entity.value.tags)
       && (q.intersects.Some? ==> Overlaps(q.intersects.value, box))
  }

  function ShownSlots(g: ReadGrant, q: Query, slots: seq<Slot>, n: nat): (r: seq<Slot>)
    requires n <= |slots|
    ensures forall i :: 0 <= i < |r| ==> r[i].entity.Some? && Shown(g, q, r[i])
  {
    if n == 0 then []
    else ShownSlots(g, q, slots, n - 1) + if Shown(g, q, slots[n - 1]) then [slots[n - 1]] else []
  }

  /** Exactly the slots the grant and the query admit. */
  lemma {:induction false} ShownExact(g: ReadGrant, q: Query, slots: seq<Slot>, n: nat)
    requires n <= |slots|
    ensures forall i :: 0 <= i < n ==> (Shown(g, q, slots[i]) <==> slots[i] in ShownSlots(g, q, slots, n))
  {
    hide Shown;
    if n > 0 {
      ShownExact(g, q, slots, n - 1);
    }
  }

  lemma {:induction false} ShownFrom(g: ReadGrant, q: Query, slots: seq<Slot>, n: nat)
    requires n <= |slots|
    ensures forall x :: x in ShownSlots(g, q, slots, n) ==> x in slots[..n]
  {
    hide Shown;
    if n > 0 {
      ShownFrom(g, q, slots, n - 1);
      assert slots[..n] == slots[..n - 1] + [slots[n - 1]];
    }
  }

  /** They come in ascending UUID order, so sorting them changes nothing, and none comes twice. */
  lemma {:induction false} ShownAscends(g: ReadGrant, q: Query, s: Snapshot, n: nat)
    requires Committed(s) && n <= |s.slots|
    ensures forall i, j :: 0 <= i < j < |ShownSlots(g, q, s.slots, n)| ==>
      Less(ShownSlots(g, q, s.slots, n)[i].uuid, ShownSlots(g, q, s.slots, n)[j].uuid)
  {
    hide Shown, Committed, Less, Uuid;
    if n > 0 {
      ShownAscends(g, q, s, n - 1);
      ShownFrom(g, q, s.slots, n - 1);
      var before := ShownSlots(g, q, s.slots, n - 1);
      SlotNamed(s, n - 1);
      forall i | 0 <= i < |before|
        ensures Less(before[i].uuid, s.slots[n - 1].uuid)
      {
        assert before[i] in before;
        var k :| 0 <= k < n - 1 && before[i] == s.slots[k];
        SlotNamed(s, k);
        UuidAscends(s.seed, k, n - 1);
      }
    }
  }

  lemma SlotNamed(s: Snapshot, k: nat)
    requires Committed(s) && k < |s.slots|
    ensures s.slots[k].uuid == Uuid(s.seed, k) && k < SLOT_LIMIT
    ensures s.slots[k].entity.Some? ==> Sorted(s.slots[k].entity.value.tags)
  {
    assert SlotSound(s.seed, s.slots[k], k);
  }

  // Pages

  datatype Retained = Retained(rows: seq<Bytes>, prefix: Bytes, pageSize: nat, responseBytes: nat, deadline: nat)

  const COMMA: Bytes := [0x2C]

  function Suffix(more: bool): (r: Bytes)
    ensures |r| == if more then 18 else 19
  {
    if more then Ascii("],\"has_more\":true}") else Ascii("],\"has_more\":false}")
  }

  /** The rows from `from` up to `to`, separated by commas. */
  function Joined(rows: seq<Bytes>, from: nat, upto: nat): Bytes
    requires from <= upto <= |rows|
    decreases upto
  {
    if from == upto then [] else Joined(rows, from, upto - 1) + (if upto - 1 > from then COMMA else []) + rows[upto - 1]
  }

  function PageText(d: Retained, from: nat, upto: nat): Bytes
    requires from <= upto <= |d.rows|
  {
    d.prefix + Joined(d.rows, from, upto) + Suffix(upto < |d.rows|)
  }

  /** The page may carry these rows. */
  predicate Fits(d: Retained, from: nat, upto: nat)
    requires from <= upto <= |d.rows|
  {
    upto - from <= d.pageSize && |PageText(d, from, upto)| <= d.responseBytes
  }

  /** Longer runs are longer texts, although the suffix without more rows is the longer one. */
  lemma {:induction false} RunsGrow(d: Retained, from: nat, a: nat, b: nat)
    requires from < a <= b <= |d.rows|
    ensures |PageText(d, from, a)| + (b - a) <= |PageText(d, from, b)|
    decreases b
  {
    if a < b {
      RunsGrow(d, from, a, b - 1);
    }
  }

  /** A page that starts later is no longer. */
  lemma {:induction false} StartsLater(d: Retained, a: nat, b: nat, upto: nat)
    requires a <= b <= upto <= |d.rows|
    ensures |Joined(d.rows, b, upto)| <= |Joined(d.rows, a, upto)|
    decreases upto
  {
    if b < upto {
      StartsLater(d, a, b, upto - 1);
    }
  }

  predicate Longest(d: Retained, from: nat, upto: nat)
    requires from <= upto <= |d.rows|
  {
    forall k :: upto < k <= |d.rows| ==> !Fits(d, from, k)
  }

  lemma FirstMiss(d: Retained, from: nat, upto: nat)
    requires from <= upto < |d.rows| && !Fits(d, from, upto + 1)
    ensures Longest(d, from, upto)
  {
    forall k | upto < k <= |d.rows|
      ensures !Fits(d, from, k)
    {
      RunsGrow(d, from, upto + 1, k);
    }
  }

  /** Where a page ends: the longest run from `from` that fits, found by taking rows while they fit. */
  function PageEnd(d: Retained, from: nat, upto: nat): (end: nat)
    requires from <= upto <= |d.rows|
    ensures upto <= end <= |d.rows|
    decreases |d.rows| - upto
  {
    if upto < |d.rows| && Fits(d, from, upto + 1) then PageEnd(d, from, upto + 1) else upto
  }

  datatype Cursor = Cursor(owner: Session?, snapshot: u64, offset: nat)

  datatype Page = Page(json: Bytes, next: Option<nat>)

  /** The page at an offset: its text and where the next one starts. */
  function PageAt(d: Retained, from: nat): Result<Page, string>
    requires from <= |d.rows|
  {
    var end := PageEnd(d, from, from);
    if (end == from && end < |d.rows|) || |PageText(d, from, end)| > d.responseBytes then Err("BUDGET_EXCEEDED")
    else Ok(Page(PageText(d, from, end), if end < |d.rows| then Some(end) else None))
  }

  lemma {:induction false} PageEndLongest(d: Retained, from: nat, upto: nat)
    requires from <= upto <= |d.rows| && (upto == from || Fits(d, from, upto))
    ensures
      var end := PageEnd(d, from, upto);
      && Longest(d, from, end) && (end == from || Fits(d, from, end))
    decreases |d.rows| - upto
  {
    if upto < |d.rows| {
      if Fits(d, from, upto + 1) {
        PageEndLongest(d, from, upto + 1);
      } else {
        FirstMiss(d, from, upto);
      }
    }
  }

  /** A page is refused exactly when not even its first row fits; otherwise it is within both budgets, is the
      longest run that fits, and a continuing page makes progress. */
  lemma {:induction false} PageExact(d: Retained, from: nat)
    requires from <= |d.rows| && d.pageSize >= 1
    ensures
      var r := PageAt(d, from);
      var end := PageEnd(d, from, from);
      && (r.Ok? <==> Fits(d, from, if from < |d.rows| then from + 1 else from))
      && (r.Ok? ==>
            && r.value.json == PageText(d, from, end) && Fits(d, from, end) && Longest(d, from, end)
            && (r.value.next == if end < |d.rows| then Some(end) else None)
            && (from < |d.rows| ==> end > from))
  {
    PageEndLongest(d, from, from);
  }

  /** The row fits on a page of its own. */
  predicate FitsAlone(d: Retained, k: nat)
    requires k < |d.rows|
  {
    Fits(d, k, k + 1)
  }

  /** The pages that following the cursors delivers, as the offsets where they end; None when one is refused. */
  function Followed(d: Retained, from: nat): (r: Option<seq<nat>>)
    requires from <= |d.rows| && d.pageSize >= 1
    decreases |d.rows| - from
  {
    var page := PageAt(d, from);
    PageExact(d, from);
    if page.Err? then None
    else if page.value.next.None? then Some([|d.rows|])
    else
      var rest := Followed(d, page.value.next.value);
      if rest.None? then None else Some([page.value.next.value] + rest.value)
  }

  /** The rows of the pages one after the other. */
  function Delivered(d: Retained, from: nat, ends: seq<nat>): seq<Bytes>
    decreases |ends|
  {
    if ends == [] || ends[0] < from || ends[0] > |d.rows| then [] else d.rows[from..ends[0]] + Delivered(d, ends[0], ends[1..])
  }

  lemma AloneFits(d: Retained, from: nat, k: nat, upto: nat)
    requires from <= k < upto <= |d.rows| && d.pageSize >= 1 && Fits(d, from, upto)
    ensures FitsAlone(d, k)
  {
    StartsLater(d, from, k, k + 1);
    RunsGrow(d, from, k + 1, upto);
  }

  /** Following the cursors delivers every retained row, in order, exactly once; it is cut short exactly
      when some row alone does not fit, or there is no row and not even an empty page fits. */
  lemma {:induction false} FollowedExact(d: Retained, from: nat)
    requires from <= |d.rows| && d.pageSize >= 1
    ensures Followed(d, from).Some? <==>
      (forall k :: from <= k < |d.rows| ==> FitsAlone(d, k)) && (from == |d.rows| ==> Fits(d, from, from))
    ensures Followed(d, from).Some? ==> Delivered(d, from, Followed(d, from).value) == d.rows[from..]
    decreases |d.rows| - from
  {
    hide Fits, PageText, PageEnd;
    PageExact(d, from);
    var page, end := PageAt(d, from), PageEnd(d, from, from);
    if page.Ok? {
      forall k | from <= k < end
        ensures FitsAlone(d, k)
      {
        AloneFits(d, from, k, end);
      }
      if end < |d.rows| {
        FollowedExact(d, end);
        assert d.rows[from..] == d.rows[from..end] + d.rows[end..];
      } else {
        assert d.rows[from..end] + [] == d.rows[from..];
      }
    } else if from < |d.rows| {
      assert !FitsAlone(d, from);
    }
  }

  lemma {:induction false} PageBegins(d: Retained, from: nat)
    requires from <= |d.rows|
    ensures Joined(d.rows, from, from) == [] && d.prefix + [] == d.prefix
  {
  }

  /** One more row, and whether the page ends before it. */
  lemma PageContinues(d: Retained, from: nat, upto: nat)
    requires from <= upto < |d.rows|
    ensures
      && Joined(d.rows, from, upto + 1) == Joined(d.rows, from, upto) + (if upto > from then COMMA else []) + d.rows[upto]
      && d.prefix + Joined(d.rows, from, upto + 1) == (d.prefix + Joined(d.rows, from, upto) + (if upto > from then COMMA else [])) + d.rows[upto]
      && |Joined(d.rows, from, upto + 1)| == |Joined(d.rows, from, upto)| + (if upto > from then 1 else 0) + |d.rows[upto]|
    ensures
      PageEnd(d, from, upto) ==
        if upto - from < d.pageSize && |d.prefix| + |Joined(d.rows, from, upto + 1)| + |Suffix(upto + 1 < |d.rows|)| <= d.responseBytes
        then PageEnd(d, from, upto + 1) else upto
  {
    hide Suffix;
  }

  lemma {:induction false} PageStops(d: Retained, from: nat, upto: nat)
    requires from <= upto <= |d.rows|
    ensures upto == |d.rows| || upto - from >= d.pageSize ==> PageEnd(d, from, upto) == upto
  {
  }

  /** Appends the rows of a page one by one. */
  method WritePage(d: Retained, offset: nat) returns (r: Result<Page, string>)
    requires offset <= |d.rows|
    ensures r == PageAt(d, offset)
  {
    hide Suffix, Fits, PageEnd, Joined;
    PageBegins(d, offset);
    var end, payload := offset, 0;
    while end < |d.rows| && end - offset < d.pageSize
      invariant offset <= end <= |d.rows| && end - offset <= d.pageSize
      invariant payload == |Joined(d.rows, offset, end)|
      invariant PageEnd(d, offset, end) == PageEnd(d, offset, offset)
    {
      var candidate := payload + (if end > offset then 1 else 0) + |d.rows[end]|;
      PageContinues(d, offset, end);
      if |d.prefix| + candidate + |Suffix(end + 1 < |d.rows|)| > d.responseBytes {
        break;
      }
      payload, end := candidate, end + 1;
    }
    PageStops(d, offset, end);
    var more := end < |d.rows|;
    var count := |d.prefix| + payload + |Suffix(more)|;
    assert count == |PageText(d, offset, end)|;
    if (end == offset && more) || count > d.responseBytes {
      return Err("BUDGET_EXCEEDED");
    }
    var json, i := d.prefix, offset;
    while i < end
      invariant offset <= i <= end
      invariant json == d.prefix + Joined(d.rows, offset, i)
    {
      PageContinues(d, offset, i);
      if i > offset {
        json := json + COMMA;
      }
      json := json + d.rows[i];
      i := i + 1;
    }
    r := Ok(Page(json + Suffix(more), if more then Some(end) else None));
  }

  // The session

  function RowTexts(printer: Printer, slots: seq<Slot>): (r: seq<Bytes>)
    requires forall i :: 0 <= i < |slots| ==> slots[i].entity.Some?
    ensures |r| == |slots|
  {
    seq(|slots|, i requires 0 <= i < |slots| => printer.row(slots[i], BoxOf(slots[i].entity.value.transform)))
  }

  function Total(rows: seq<Bytes>, n: nat): nat
    requires n <= |rows|
  {
    if n == 0 then 0 else Total(rows, n - 1) + |rows[n - 1]|
  }

  function Smaller(a: nat, b: nat): nat {
    if a < b then a else b
  }

  /** What a query retains: the rows of exactly the slots it shows, unless they exceed the grant. */
  function Captured(printer: Printer, g: ReadGrant, q: Query, s: Snapshot, expires: nat, now: nat): Result<Retained, string> {
    var prefix := printer.prefix(s.worldId, s.revision);
    var rows := RowsOf(printer, g, q, s.slots, |s.slots|);
    if |prefix| + Total(rows, |rows|) > g.retainedBytes then Err("BUDGET_EXCEEDED")
    else Ok(Retained(rows, prefix, q.pageSize, Smaller(q.responseBytes, g.responseBytes), Smaller(expires, now + g.snapshotLifetime)))
  }

  lemma {:induction false} TotalGrows(rows: seq<Bytes>, m: nat, n: nat)
    requires m <= n <= |rows|
    ensures Total(rows, m) <= Total(rows, n)
    decreases n
  {
    if m < n {
      TotalGrows(rows, m, n - 1);
    }
  }

  lemma {:induction false} TotalPrefix(a: seq<Bytes>, b: seq<Bytes>, n: nat)
    requires n <= |a| && a <= b
    ensures Total(a, n) == Total(b, n)
  {
    if n > 0 {
      TotalPrefix(a, b, n - 1);
    }
  }

  lemma {:induction false} ShownGrows(g: ReadGrant, q: Query, slots: seq<Slot>, m: nat, n: nat)
    requires m <= n <= |slots|
    ensures ShownSlots(g, q, slots, m) <= ShownSlots(g, q, slots, n)
    decreases n
  {
    hide Shown;
    if m < n {
      ShownGrows(g, q, slots, m, n - 1);
    }
  }

  /** The rows of the shown slots among the first `n`. */
  function RowsOf(printer: Printer, g: ReadGrant, q: Query, slots: seq<Slot>, n: nat): seq<Bytes>
    requires n <= |slots|
  {
    RowTexts(printer, ShownSlots(g, q, slots, n))
  }

  lemma RowsStep(printer: Printer, g: ReadGrant, q: Query, slots: seq<Slot>, i: nat)
    requires i < |slots|
    ensures
      var (rows, next) := (RowsOf(printer, g, q, slots, i), RowsOf(printer, g, q, slots, i + 1));
      if Shown(g, q, slots[i]) then
        && slots[i].entity.Some?
        && var row := printer.row(slots[i], BoxOf(slots[i].entity.value.transform));
           next == rows + [row] && Total(next, |next|) == Total(rows, |rows|) + |row|
      else next == rows
  {
    hide Inside, Overlaps, Permitted, BoxOf;
    var rows, next := RowsOf(printer, g, q, slots, i), RowsOf(printer, g, q, slots, i + 1);
    if Shown(g, q, slots[i]) {
      assert next == rows + [printer.row(slots[i], BoxOf(slots[i].entity.value.transform))];
      TotalPrefix(rows, next, |rows|);
    }
  }

  lemma RowsBound(printer: Printer, g: ReadGrant, q: Query, slots: seq<Slot>, i: nat)
    requires i <= |slots|
    ensures
      var (rows, all) := (RowsOf(printer, g, q, slots, i), RowsOf(printer, g, q, slots, |slots|));
      Total(rows, |rows|) <= Total(all, |all|)
  {
    hide Shown, BoxOf;
    var rows, all := RowsOf(printer, g, q, slots, i), RowsOf(printer, g, q, slots, |slots|);
    ShownGrows(g, q, slots, i, |slots|);
    TotalPrefix(rows, all, |rows|);
    TotalGrows(all, |rows|, |all|);
  }

  /** Collects the rows in slot order, counting their bytes. */
  method Capture(printer: Printer, g: ReadGrant, q: Query, s: Snapshot, expires: nat, now: nat) returns (r: Result<Retained, string>)
    requires Committed(s)
    ensures r == Captured(printer, g, q, s, expires, now)
  {
    hide Shown, Committed, BoxOf, Sorted, ShownSlots, RowTexts, Total;
    var prefix := printer.prefix(s.worldId, s.revision);
    var rows: seq<Bytes>, retained, i := [], |prefix|, 0;
    NoRows(printer, g, q, s.slots);
    RowsBound(printer, g, q, s.slots, 0);
    if retained > g.retainedBytes {
      return Err("BUDGET_EXCEEDED");
    }
    while i < |s.slots|
      invariant i <= |s.slots| && rows == RowsOf(printer, g, q, s.slots, i)
      invariant retained == |prefix| + Total(rows, |rows|) <= g.retainedBytes
    {
      var slot := s.slots[i];
      SlotNamed(s, i);
      RowsStep(printer, g, q, s.slots, i);
      RowsBound(printer, g, q, s.slots, i + 1);
      var shows := Shows(g, q, slot);
      if shows {
        var row := printer.row(slot, BoxOf(slot.entity.value.transform));
        if |row| > g.retainedBytes - retained {
          return Err("BUDGET_EXCEEDED");
        }
        retained, rows := retained + |row|, rows + [row];
      }
      i := i + 1;
    }
    r := Ok(Retained(rows, prefix, q.pageSize, Smaller(q.responseBytes, g.responseBytes), Smaller(expires, now + g.snapshotLifetime)));
  }

  lemma NoRows(printer: Printer, g: ReadGrant, q: Query, slots: seq<Slot>)
    ensures RowsOf(printer, g, q, slots, 0) == [] && Total([], 0) == 0
  {
  }

  /** The tests on one slot, in the order of the source: identity, region, tags, then the queried box. */
  method Shows(g: ReadGrant, q: Query, slot: Slot) returns (shows: bool)
    requires slot.entity.Some? ==> Sorted(slot.entity.value.tags)
    ensures shows == Shown(g, q, slot) && (shows ==> slot.entity.Some?)
  {
    hide BoxOf, Sorted, Inside, Overlaps, Permitted;
    if slot.entity.None? || slot.retired || !Permitted(g, slot) {
      return false;
    }
    var e := slot.entity.value;
    var box := BoxOf(e.transform);
    if g.region.Some? && !Inside(g.region.value, box) {
      return false;
    }
    var i := 0;
    while i < |q.allTags|
      invariant i <= |q.allTags| && forall k :: 0 <= k < i ==> q.allTags[k] in e.tags
    {
      if !Contains(e.tags, q.allTags[i]) {
        return false;
      }
      i := i + 1;
    }
    shows := q.intersects.None? || Overlaps(q.intersects.value, box);
  }

  /** What a session remembers between calls. */
  datatype State = State(retained: Option<Retained>, serial: u64, closed: bool)

  /** At `now` the whole session may be over, or just the retained snapshot. */
  function Expired(x: State, expires: nat, now: nat): State {
    if now >= expires then x.(retained := None, closed := true)
    else if x.retained.Some? && now >= x.retained.value.deadline then x.(retained := None)
    else x
  }

  datatype Answer = Answer(state: State, page: Result<Page, string>, owned: bool)

  function Refused(x: State, code: string): Answer {
    Answer(x, Err(code), false)
  }

  function Started(printer: Printer, g: ReadGrant, x: State, q: Query, s: Snapshot, expires: nat, times: (nat, nat, nat)): Answer
  {
    var y := Expired(x, expires, times.0);
    if y.closed then Refused(y, "NOT_AUTHORIZED")
    else if !ValidQuery(q) then Refused(y, "INVALID_SCHEMA")
    else if y.serial == U64_MAX then Refused(y, "BUDGET_EXCEEDED")
    else
      match Captured(printer, g, q, s, expires, times.1)
      case Err(code) => Refused(y, code)
      case Ok(d) =>
        var page := PageAt(d, 0);
        if page.Err? then Refused(y, page.error)
        else if times.2 >= d.deadline then Refused(Expired(y, expires, times.2), "REQUIRES_RESYNC")
        else Answer(State(Some(d), y.serial + 1, y.closed), page, true)
  }

  /** A cursor is answered from the retained snapshot alone. */
  function Continued(x: State, own: bool, snapshot: u64, offset: nat, expires: nat, times: (nat, nat)): Answer {
    var y := Expired(x, expires, times.0);
    if y.closed || y.retained.None? || !own || snapshot != y.serial || offset >= |y.retained.value.rows|
    then Refused(y, "REQUIRES_RESYNC")
    else if times.1 >= y.retained.value.deadline then Refused(Expired(y, expires, times.1), "REQUIRES_RESYNC")
    else Answer(y, PageAt(y.retained.value, offset), true)
  }

  /** What may happen between two reads of a cursor; a write puts any other world in place. */
  datatype Call =
    | Ask(q: Query, times: (nat, nat, nat))
    | Follow(own: bool, snapshot: u64, offset: nat, moments: (nat, nat))
    | Expire(now: nat)
    | Close
    | Write(world: Snapshot)

  datatype Watched = Watched(state: State, world: Snapshot)

  function Called(printer: Printer, g: ReadGrant, expires: nat, w: Watched, c: Call): Watched {
    match c
    case Ask(q, times) => w.(state := Started(printer, g, w.state, q, w.world, expires, times).state)
    case Follow(own, snapshot, offset, moments) => w.(state := Continued(w.state, own, snapshot, offset, expires, moments).state)
    case Expire(now) => w.(state := Expired(w.state, expires, now))
    case Close => w.(state := w.state.(retained := None, closed := true))
    case Write(world) => w.(world := world)
  }

  function AfterCalls(printer: Printer, g: ReadGrant, expires: nat, w: Watched, calls: seq<Call>, n: nat): Watched
    requires n <= |calls|
  {
    if n == 0 then w else Called(printer, g, expires, AfterCalls(printer, g, expires, w, calls, n - 1), calls[n - 1])
  }

  /** A call that ends what came before it: another query that is answered, or the end of the session. */
  predicate Replaces(printer: Printer, g: ReadGrant, expires: nat, w: Watched, c: Call) {
    c.Close? || (c.Ask? && Started(printer, g, w.state, c.q, w.world, expires, c.times).page.Ok?)
  }

  predicate Undisturbed(printer: Printer, g: ReadGrant, expires: nat, w: Watched, calls: seq<Call>, n: nat)
    requires n <= |calls|
  {
    n > 0 ==>
      && Undisturbed(printer, g, expires, w, calls, n - 1)
      && !Replaces(printer, g, expires, AfterCalls(printer, g, expires, w, calls, n - 1), calls[n - 1])
  }

  /** The call reads the clock no later than `now`. */
  predicate NoLater(c: Call, now: nat) {
    match c
    case Ask(_, times) => times.0 <= now && times.1 <= now && times.2 <= now
    case Follow(_, _, _, moments) => moments.0 <= now && moments.1 <= now
    case Expire(time) => time <= now
    case _ => true
  }

  /** `d` is still there to be read under `serial`. */
  predicate Holds(x: State, d: Retained, serial: u64) {
    x == State(Some(d), serial, false)
  }

  /** It is not there any more, and will not be. */
  predicate Lost(x: State, serial: u64) {
    x.serial > serial || x.closed
  }

  lemma CalledHolds(printer: Printer, g: ReadGrant, expires: nat, w: Watched, c: Call, d: Retained, serial: u64, now: nat)
    requires Holds(w.state, d, serial) && NoLater(c, now)
    ensures
      var x := Called(printer, g, expires, w, c).state;
      && (now < d.deadline <= expires && !Replaces(printer, g, expires, w, c) ==> Holds(x, d, serial))
      && (Replaces(printer, g, expires, w, c) ==> Lost(x, serial))
      && (Holds(x, d, serial) || Lost(x, serial) || x.retained.None?)
  {
    hide Captured, PageAt, ValidQuery;
  }

  lemma CalledLost(printer: Printer, g: ReadGrant, expires: nat, w: Watched, c: Call, d: Retained, serial: u64)
    requires w.state.serial >= serial
    ensures
      var x := Called(printer, g, expires, w, c).state;
      && x.serial >= serial && (Lost(w.state, serial) ==> Lost(x, serial))
      && (w.state.retained.None? ==> x.retained.None? || Lost(x, serial))
  {
    hide Captured, PageAt, ValidQuery;
  }

  /** Until another query is answered the retained rows are there, or gone for ever. */
  lemma {:induction false} CallsHold(printer: Printer, g: ReadGrant, expires: nat, w: Watched, calls: seq<Call>, n: nat,
                                     d: Retained, serial: u64, now: nat)
    requires Holds(w.state, d, serial) && n <= |calls| && forall k :: 0 <= k < |calls| ==> NoLater(calls[k], now)
    ensures
      var (x, quiet) := (AfterCalls(printer, g, expires, w, calls, n).state, Undisturbed(printer, g, expires, w, calls, n));
      && x.serial >= serial && (now < d.deadline <= expires && quiet ==> Holds(x, d, serial)) && (!quiet ==> Lost(x, serial) || x.retained.None?)
      && (Holds(x, d, serial) || Lost(x, serial) || x.retained.None?)
    decreases n
  {
    hide Called, Replaces, NoLater;
    if n > 0 {
      CallsHold(printer, g, expires, w, calls, n - 1, d, serial, now);
      var v := AfterCalls(printer, g, expires, w, calls, n - 1);
      CalledLost(printer, g, expires, v, calls[n - 1], d, serial);
      if Holds(v.state, d, serial) {
        CalledHolds(printer, g, expires, v, calls[n - 1], d, serial, now);
      }
    }
  }

  /** Reading a cursor, after whatever calls and writes, gives the page of the world its query captured if and only if no
      other query has been answered since, the session was not closed and the lifetime has not passed; otherwise it asks
      for a new query. So reading it again gives the same page. */
  lemma {:induction false} RereadSame(printer: Printer, g: ReadGrant, expires: nat, w: Watched, q: Query, start: (nat, nat, nat),
                   calls: seq<Call>, offset: nat, times: (nat, nat))
    requires Started(printer, g, w.state, q, w.world, expires, start).page.Ok?
    requires times.0 <= times.1 && forall k :: 0 <= k < |calls| ==> NoLater(calls[k], times.0)
    ensures Captured(printer, g, q, w.world, expires, start.1).Ok?
    ensures
      var d := Captured(printer, g, q, w.world, expires, start.1).value;
      var x := Started(printer, g, w.state, q, w.world, expires, start).state;
      var y := AfterCalls(printer, g, expires, w.(state := x), calls, |calls|).state;
      Continued(y, true, x.serial, offset, expires, times).page ==
        if Undisturbed(printer, g, expires, w.(state := x), calls, |calls|) && times.1 < d.deadline && offset < |d.rows|
        then PageAt(d, offset) else Err("REQUIRES_RESYNC")
  {
    CapturedDeadline(printer, g, q, w.world, expires, start.1);
    StartedHolds(printer, g, expires, w, q, start);
    hide Captured, PageAt, Started, Continued, AfterCalls, Undisturbed, Holds, Lost, NoLater;
    var d := Captured(printer, g, q, w.world, expires, start.1).value;
    var x := Started(printer, g, w.state, q, w.world, expires, start).state;
    CallsHold(printer, g, expires, w.(state := x), calls, |calls|, d, x.serial, times.0);
    var y := AfterCalls(printer, g, expires, w.(state := x), calls, |calls|).state;
    ReadHeld(y, d, x.serial, offset, expires, times);
  }

  lemma StartedHolds(printer: Printer, g: ReadGrant, expires: nat, w: Watched, q: Query, start: (nat, nat, nat))
    requires Started(printer, g, w.state, q, w.world, expires, start).page.Ok?
    ensures
      var (d, x) := (Captured(printer, g, q, w.world, expires, start.1), Started(printer, g, w.state, q, w.world, expires, start).state);
      d.Ok? && Holds(x, d.value, x.serial)
  {
    hide Captured, PageAt, ValidQuery;
  }

  lemma ReadHeld(y: State, d: Retained, serial: u64, offset: nat, expires: nat, times: (nat, nat))
    requires d.deadline <= expires && times.0 <= times.1
    ensures
      var page := Continued(y, true, serial, offset, expires, times).page;
      && (Holds(y, d, serial) ==> page == if times.1 < d.deadline && offset < |d.rows| then PageAt(d, offset) else Err("REQUIRES_RESYNC"))
      && (Lost(y, serial) || y.retained.None? ==> page == Err("REQUIRES_RESYNC"))
  {
    hide PageAt;
  }

  lemma CapturedDeadline(printer: Printer, g: ReadGrant, q: Query, s: Snapshot, expires: nat, now: nat)
    ensures Captured(printer, g, q, s, expires, now).Ok? ==> Captured(printer, g, q, s, expires, now).value.deadline <= expires
  {
    hide RowTexts, ShownSlots, Total;
  }

  /** Expiry only ever takes away: a dropped snapshot or a closed session does not come back by itself. */
  lemma ExpiryStays(x: State, expires: nat, now: nat, later: nat)
    requires now <= later
    ensures Expired(Expired(x, expires, now), expires, later) == Expired(x, expires, later)
  {
  }

  class Session {
    const world: World
    const grant: ReadGrant
    const expires: nat
    var retained: Option<Retained>
    var serial: u64
    var closed: bool

    ghost function Now(): State
      reads this
    {
      State(retained, serial, closed)
    }

    constructor (world: World, grant: ReadGrant, now: nat)
      requires ValidGrant(grant)
      ensures this.world == world && this.grant == grant && expires == now + grant.lifetime
      ensures Now() == State(None, 0, false)
    {
      this.world, this.grant, expires := world, grant, now + grant.lifetime;
      retained, serial, closed := None, 0, false;
    }

    method Close()
      modifies this`retained, this`closed
      ensures Now() == old(Now()).(retained := None, closed := true)
    {
      retained, closed := None, true;
    }

    method Expire(now: nat) returns (over: bool)
      modifies this`retained, this`closed
      ensures Now() == Expired(old(Now()), expires, now) && over == closed
    {
      if now >= expires {
        Close();
      } else if retained.Some? && now >= retained.value.deadline {
        retained := None;
      }
      over := closed;
    }

    /** A new query: captures the world and retains the rows for the cursors that follow. */
    method Start(printer: Printer, query: Query, first: nat, second: nat, third: nat)
      returns (page: Result<Page, string>, next: Option<Cursor>)
      requires Committed(world.state)
      modifies this`retained, this`serial, this`closed
      ensures
        var a := Started(printer, grant, old(Now()), query, world.state, expires, (first, second, third));
        Now() == a.state && page == a.page
      ensures next == if page.Ok? && page.value.next.Some? then Some(Cursor(this, serial, page.value.next.value)) else None
    {
      hide Committed, ValidQuery, Captured, PageAt, UuidShaped;
      next := None;
      var over := Expire(first);
      if over {
        return Err("NOT_AUTHORIZED"), None;
      }
      if !ValidQuery(query) {
        return Err("INVALID_SCHEMA"), None;
      }
      if serial == U64_MAX {
        return Err("BUDGET_EXCEEDED"), None;
      }
      var staged := Capture(printer, grant, query, world.state, expires, second);
      if staged.Err? {
        return Err(staged.error), None;
      }
      page := WritePage(staged.value, 0);
      if page.Err? {
        return;
      }
      if third >= staged.value.deadline {
        var _ := Expire(third);
        return Err("REQUIRES_RESYNC"), None;
      }
      retained, serial := Some(staged.value), serial + 1;
      if page.value.next.Some? {
        next := Some(Cursor(this, serial, page.value.next.value));
      }
    }

    /** Follows a cursor; the world is not read. */
    method Next(cursor: Cursor, first: nat, second: nat) returns (page: Result<Page, string>, next: Option<Cursor>)
      modifies this`retained, this`closed
      ensures
        var a := Continued(old(Now()), cursor.owner == this, cursor.snapshot, cursor.offset, expires, (first, second));
        Now() == a.state && page == a.page
      ensures next == if page.Ok? && page.value.next.Some? then Some(Cursor(this, serial, page.value.next.value)) else None
    {
      hide PageAt;
      next := None;
      var over := Expire(first);
      if over || retained.None? || cursor.owner != this || cursor.snapshot != serial || cursor.offset >= |retained.value.rows| {
        return Err("REQUIRES_RESYNC"), None;
      }
      page := WritePage(retained.value, cursor.offset);
      if second >= retained.value.deadline {
        var _ := Expire(second);
        return Err("REQUIRES_RESYNC"), None;
      }
      if page.Ok? && page.value.next.Some? {
        next := Some(Cursor(this, serial, page.value.next.value));
      }
    }
  }
}
