/** The directory of a store, what a crash may leave in it, and what opening it recovers. */
module Recovery {
  import opened Prelude
  import opened Texts
  import opened Worlds
  import opened Commands
  import opened Package
  import opened Durable
  import opened Frames

  /** The files of a store directory; the lock file is empty. */
  datatype Disk = Disk(checkpoint: Bytes, journal: Bytes, scratch: Option<Bytes>)

  function Used(d: Disk): nat {
    |d.checkpoint| + |d.journal| + if d.scratch.Some? then |d.scratch.value| else 0
  }

  predicate QuotaAllows(d: Disk, c: Config, added: nat) {
    Used(d) <= MAXIMUM_QUOTA && Used(d) <= c.quota && added <= c.quota - Used(d)
  }

  /** `earlier` and `later` belong together, and `later` continues `earlier`. */
  predicate Extends(earlier: Package, later: Package) {
    earlier.config == later.config && earlier.epoch == later.epoch && earlier.entries <= later.entries
  }

  /** What the journal loop carries: the last candidate, and the best package with its world. */
  datatype Scan = Scan(prior: Option<Package>, package: Package, world: Snapshot)

  /** One complete frame of the journal, checked against what came before. */
  function ScanFrame(pl: Platform, selected: Package, scan: Scan, found: Found): Option<Scan>
    requires found.Whole?
  {
    var (c, w) :- Decoded(pl, found.payload);
    if found.high != High(c) || found.high == 0 then None
    else if scan.prior.Some? && (High(c) != High(scan.prior.value) + 1 || !Extends(scan.prior.value, c)) then None
    else if scan.prior.None? && High(c) > High(selected) + 1 then None
    else if High(c) <= High(selected) && !Extends(c, selected) then None
    else if High(c) > High(selected) && (High(c) != High(scan.package) + 1 || !Extends(scan.package, c)) then None
    else if High(c) > High(scan.package) then Some(Scan(Some(c), c, w))
    else Some(scan.(prior := Some(c)))
  }

  /** The journal loop over the remaining bytes: the result, and how many bytes are kept. */
  function ScanJournal(pl: Platform, b: Bytes, selected: Package, scan: Scan): (r: Option<(Scan, nat)>)
    ensures r.Some? ==> r.value.1 <= |b|
    decreases |b|
  {
    if b == [] then Some((scan, 0))
    else
      match ReadFrame(pl, b)
      case Corrupt => None
      case Torn => Some((scan, 0))
      case Whole(payload, high, size) =>
        var next :- ScanFrame(pl, selected, scan, Whole(payload, high, size));
        var (last, kept) :- ScanJournal(pl, b[size..], selected, next);
        Some((last, size + kept))
  }

  /** What opening finds: the package, its world, and how much of the journal is sound. */
  datatype Opened = Opened(package: Package, world: Snapshot, kept: nat)

  function Selected(pl: Platform, checkpoint: Bytes): Option<(Package, Snapshot)> {
    if |checkpoint| > FRAME_LIMIT then None
    else
      match ReadFrame(pl, checkpoint)
      case Whole(payload, high, size) =>
        if size != |checkpoint| then None
        else
          var (p, w) :- Decoded(pl, payload);
          if High(p) == high then Some((p, w)) else None
      case _ => None
  }

  /** Everything `open` decides before it repairs anything. */
  function Opening(pl: Platform, d: Disk): (r: Result<Opened, string>)
    ensures r.Ok? ==> r.value.kept <= |d.journal|
  {
    var selected := Selected(pl, d.checkpoint);
    if selected.None? || |d.journal| > JOURNAL_LIMIT then Err("CORRUPT_STORE")
    else
      var (p, w) := selected.value;
      var scanned := ScanJournal(pl, d.journal, p, Scan(None, p, w));
      if scanned.None? then Err("CORRUPT_STORE")
      else
        var (scan, kept) := scanned.value;
        if Used(d) > MAXIMUM_QUOTA || Used(d) > scan.package.config.quota then Err("QUOTA_EXCEEDED")
        else if d.scratch.Some? && |d.scratch.value| > FRAME_LIMIT then Err("CORRUPT_STORE")
        else Ok(Opened(scan.package, scan.world, kept))
  }

  /** The repair: the incomplete tail goes first, then the scratch file. */
  function Truncated(d: Disk, kept: nat): Disk
    requires kept <= |d.journal|
  {
    d.(journal := d.journal[..kept])
  }

  function Repaired(d: Disk, kept: nat): Disk
    requires kept <= |d.journal|
  {
    Truncated(d, kept).(scratch := None)
  }

  // What a directory holds

  /** The frames of the commits after the first `a`, up to the `n`-th. */
  function JournalFrames(pl: Platform, p: Package, a: nat, n: nat): Bytes
    requires n <= |p.entries|
    decreases n - a
  {
    if a >= n then [] else Frame(pl, Cut(pl, p, a + 1)) + JournalFrames(pl, p, a + 1, n)
  }

  /** A strict prefix of the frame of some package that continues `p` by one commit. */
  ghost predicate TornTail(pl: Platform, p: Package, tail: Bytes) {
    tail == [] || exists q :: TornBy(pl, p, tail, q)
  }

  predicate TornBy(pl: Platform, p: Package, tail: Bytes, q: Package) {
    High(q) == High(p) + 1 && PackageFits(q) && tail < Frame(pl, q)
  }

  /** The checkpoint holds the first `c` commits, the journal those after the first `a`. */
  ghost predicate Layout(pl: Platform, d: Disk, p: Package, c: nat, a: nat, tail: Bytes) {
    && a <= c <= |p.entries|
    && d.checkpoint == Frame(pl, Cut(pl, p, c))
    && d.journal == JournalFrames(pl, p, a, |p.entries|) + tail
  }

  /** The directory durably holds exactly the package `p`, whose world is `w`. */
  ghost predicate Holds(pl: Platform, d: Disk, p: Package, w: Snapshot) {
    && Sound(pl, p, w)
    && Used(d) <= p.config.quota
    && (d.scratch.Some? ==> |d.scratch.value| <= FRAME_LIMIT)
    && exists c, a, tail :: Layout(pl, d, p, c, a, tail) && TornTail(pl, p, tail)
  }

  /** As above, with no incomplete tail and no scratch file. */
  ghost predicate HoldsClean(pl: Platform, d: Disk, p: Package, w: Snapshot) {
    && Sound(pl, p, w) && Used(d) <= p.config.quota && d.scratch.None?
    && exists c, a :: Layout(pl, d, p, c, a, [])
  }

  // Recovery

  lemma FrameFits(pl: Platform, p: Package, w: Snapshot)
    requires Lawful(pl) && Sound(pl, p, w)
    ensures |PackageBytes(pl, p)| <= PACKAGE_LIMIT && High(p) <= COMMIT_LIMIT && |Frame(pl, p)| <= FRAME_LIMIT
  {
    PackageSize(pl, p);
  }

  lemma CutExtends(pl: Platform, p: Package, j: nat, k: nat)
    requires j <= k <= |p.entries|
    ensures Extends(Cut(pl, p, j), Cut(pl, p, k))
  {
    assert p.entries[..j] == p.entries[..k][..j];
  }

  /** The world of the first `k` commits. */
  function WorldAt(pl: Platform, p: Package, w: Snapshot, k: nat): Snapshot
    requires k <= |p.entries| && Sound(pl, p, w)
  {
    CutSound(pl, p, w, k);
    Replay.Replayed(pl, LogOf(pl, p), k).value
  }

  lemma WorldAtEnd(pl: Platform, p: Package, w: Snapshot)
    requires Sound(pl, p, w)
    ensures WorldAt(pl, p, w, |p.entries|) == w
  {
    hide PackageFits, EntriesValid, Replay.Replayed, Replay.CheckRecords, ReceiptsOf;
    CutSound(pl, p, w, |p.entries|);
    assert Replay.TracksTo(pl, w, RecordsOf(pl, p.entries), |p.entries|);
    assert Replay.Exported(pl, w, RecordsOf(pl, p.entries)) == LogOf(pl, p);
  }

  lemma CutReads(pl: Platform, p: Package, w: Snapshot, k: nat, rest: Bytes)
    requires Lawful(pl) && Sound(pl, p, w) && k <= |p.entries|
    ensures
      var cut := Cut(pl, p, k);
      && ReadFrame(pl, Frame(pl, cut) + rest) == Whole(PackageBytes(pl, cut), k, |Frame(pl, cut)|)
      && Decoded(pl, PackageBytes(pl, cut)) == Some((cut, WorldAt(pl, p, w, k)))
      && |Frame(pl, cut)| <= FRAME_LIMIT
  {
    hide Sound, Lawful, ReadFrame, FrameBytes, Decoded, PackageBytes;
    CutSound(pl, p, w, k);
    var cut := Cut(pl, p, k);
    FrameFits(pl, cut, WorldAt(pl, p, w, k));
    FrameReads(pl, PackageBytes(pl, cut), k, rest);
    SoundDecodes(pl, cut, WorldAt(pl, p, w, k));
  }

  lemma SelectedReads(pl: Platform, p: Package, w: Snapshot, c: nat)
    requires Lawful(pl) && Sound(pl, p, w) && c <= |p.entries|
    ensures Selected(pl, Frame(pl, Cut(pl, p, c))) == Some((Cut(pl, p, c), WorldAt(pl, p, w, c)))
  {
    hide Sound, Lawful, ReadFrame, Frame, Decoded, PackageBytes, WorldAt;
    CutReads(pl, p, w, c, []);
    assert Frame(pl, Cut(pl, p, c)) + [] == Frame(pl, Cut(pl, p, c));
  }

  /** Nothing, or the beginning of a frame. */
  predicate Unfinished(pl: Platform, tail: Bytes) {
    tail == [] || ReadFrame(pl, tail) == Torn
  }

  lemma TailTorn(pl: Platform, p: Package, tail: Bytes)
    requires Lawful(pl) && TornTail(pl, p, tail) && tail != []
    ensures ReadFrame(pl, tail) == Torn
  {
    hide Lawful, ReadFrame, FrameBytes, PackageBytes, PackageFits;
    var q :| TornBy(pl, p, tail, q);
    PackageSize(pl, q);
    FitsCount(q);
    PrefixTorn(pl, PackageBytes(pl, q), High(q), tail);
  }

  lemma FitsCount(q: Package)
    requires PackageFits(q)
    ensures |q.entries| <= COMMIT_LIMIT
  {
  }

  /** The scan state once the frames up to the `k`-th commit have been read. */
  function ScanAt(pl: Platform, p: Package, w: Snapshot, c: nat, a: nat, k: nat): Scan
    requires Sound(pl, p, w) && a <= c <= |p.entries| && a <= k <= |p.entries|
  {
    var best := if k > c then k else c;
    Scan(if k == a then None else Some(Cut(pl, p, k)), Cut(pl, p, best), WorldAt(pl, p, w, best))
  }

  lemma ScanStep(pl: Platform, p: Package, w: Snapshot, c: nat, a: nat, k: nat)
    requires Lawful(pl) && Sound(pl, p, w) && a <= c <= |p.entries| && a <= k < |p.entries|
    ensures
      var next := Cut(pl, p, k + 1);
      ScanFrame(pl, Cut(pl, p, c), ScanAt(pl, p, w, c, a, k), Whole(PackageBytes(pl, next), k + 1, |Frame(pl, next)|))
      == Some(ScanAt(pl, p, w, c, a, k + 1))
  {
    hide Sound, Lawful, ReadFrame, Frame, Decoded, PackageBytes, WorldAt;
    CutReads(pl, p, w, k + 1, []);
    CutExtends(pl, p, k, k + 1);
    if k + 1 <= c {
      CutExtends(pl, p, k + 1, c);
    } else {
      CutExtends(pl, p, c, k + 1);
    }
  }

  /** On the frames of a package followed by an incomplete one, the loop recovers exactly the complete
      frames and stops where the tail begins. */
  lemma {:induction false} ScanFrames(pl: Platform, p: Package, w: Snapshot, c: nat, a: nat, k: nat, n: nat, tail: Bytes)
    requires Lawful(pl) && Sound(pl, p, w) && a <= c <= |p.entries| && a <= k <= n <= |p.entries|
    requires Unfinished(pl, tail)
    ensures
      var frames := JournalFrames(pl, p, k, n);
      ScanJournal(pl, frames + tail, Cut(pl, p, c), ScanAt(pl, p, w, c, a, k)) == Some((ScanAt(pl, p, w, c, a, n), |frames|))
    decreases n - k
  {
    hide Sound, Lawful, ReadFrame, Frame, ScanFrame, PackageBytes, WorldAt, ScanAt, Cut, Unfinished, ScanJournal, Decoded;
    if k == n {
      assert JournalFrames(pl, p, k, n) + tail == tail;
      ScanEnd(pl, tail, Cut(pl, p, c), ScanAt(pl, p, w, c, a, k));
    } else {
      var f, others := Frame(pl, Cut(pl, p, k + 1)), JournalFrames(pl, p, k + 1, n);
      CutReads(pl, p, w, k + 1, others + tail);
      FrameNonEmpty(pl, Cut(pl, p, k + 1));
      ScanStep(pl, p, w, c, a, k);
      ScanFrames(pl, p, w, c, a, k + 1, n, tail);
      Flat2(f, others, tail);
      ScanOn(pl, f, others + tail, Cut(pl, p, c), ScanAt(pl, p, w, c, a, k), PackageBytes(pl, Cut(pl, p, k + 1)), k + 1);
    }
  }

  /** The loop stops at an incomplete frame, and at the end. */
  lemma {:induction false} ScanEnd(pl: Platform, tail: Bytes, selected: Package, scan: Scan)
    requires Unfinished(pl, tail)
    ensures ScanJournal(pl, tail, selected, scan) == Some((scan, 0))
  {
    hide ReadFrame;
  }

  /** One turn of the loop. */
  lemma {:induction false} ScanOn(pl: Platform, f: Bytes, rest: Bytes, selected: Package, scan: Scan, payload: Bytes, high: nat)
    requires f != [] && ReadFrame(pl, f + rest) == Whole(payload, high, |f|)
    requires ScanFrame(pl, selected, scan, Whole(payload, high, |f|)).Some?
    ensures
      var next := ScanFrame(pl, selected, scan, Whole(payload, high, |f|)).value;
      ScanJournal(pl, f + rest, selected, scan)
      == match ScanJournal(pl, rest, selected, next)
         case None => None
         case Some(r) => Some((r.0, |f| + r.1))
  {
    hide ReadFrame, ScanFrame;
    assert (f + rest)[|f|..] == rest;
  }

  lemma FrameNonEmpty(pl: Platform, p: Package)
    ensures |Frame(pl, p)| >= FRAME_OVERHEAD
  {
  }

  lemma {:induction false} FramesSize(pl: Platform, p: Package, w: Snapshot, a: nat, n: nat)
    requires Lawful(pl) && Sound(pl, p, w) && a <= n <= |p.entries|
    ensures |JournalFrames(pl, p, a, n)| <= (n - a) * FRAME_LIMIT
    decreases n - a
  {
    hide Sound, Lawful, Frame, Cut, PackageBytes, ReadFrame, Decoded, WorldAt;
    if a < n {
      CutReads(pl, p, w, a + 1, []);
      FramesSize(pl, p, w, a + 1, n);
    }
  }

  lemma {:induction false} JournalSize(pl: Platform, p: Package, w: Snapshot, a: nat, tail: Bytes)
    requires Lawful(pl) && Sound(pl, p, w) && a <= |p.entries| && TornTail(pl, p, tail)
    ensures |JournalFrames(pl, p, a, |p.entries|)| + |tail| <= JOURNAL_LIMIT
  {
    hide Sound, Lawful, FrameBytes, PackageBytes, PackageFits, JournalFrames;
    FrameFits(pl, p, w);
    FramesSize(pl, p, w, a, |p.entries|);
    if tail != [] {
      var q :| TornBy(pl, p, tail, q);
      PackageSize(pl, q);
      FitsCount(q);
      assert |tail| < |Frame(pl, q)| <= FRAME_LIMIT;
    }
  }

  /** Whatever state a crash has left, opening succeeds, recovers exactly the durable package and its
      world, and keeps exactly the complete frames. */
  lemma OpensTo(pl: Platform, d: Disk, p: Package, w: Snapshot)
    requires Lawful(pl) && Holds(pl, d, p, w)
    ensures Opening(pl, d).Ok? && Opening(pl, d).value.package == p && Opening(pl, d).value.world == w
    ensures
      var kept := Opening(pl, d).value.kept;
      && Holds(pl, Truncated(d, kept), p, w) && HoldsClean(pl, Repaired(d, kept), p, w)
  {
    hide Sound, Lawful, ReadFrame, Frame, PackageBytes, WorldAt, JournalFrames, TornTail, Selected, ScanJournal, Cut;
    var c, a, tail :| Layout(pl, d, p, c, a, tail) && TornTail(pl, p, tail);
    var n, frames := |p.entries|, JournalFrames(pl, p, a, |p.entries|);
    QuotaBound(pl, p, w);
    SelectedReads(pl, p, w, c);
    JournalSize(pl, p, w, a, tail);
    if tail != [] {
      TailTorn(pl, p, tail);
    }
    ScanFrames(pl, p, w, c, a, a, n, tail);
    CutWhole(pl, p, w);
    WorldAtEnd(pl, p, w);
    assert ScanAt(pl, p, w, c, a, a) == Scan(None, Cut(pl, p, c), WorldAt(pl, p, w, c));
    var kept := |frames|;
    assert d.journal[..kept] == frames == frames + [];
    NoTail(pl, p);
    assert Layout(pl, Truncated(d, kept), p, c, a, []);
    assert Layout(pl, Repaired(d, kept), p, c, a, []);
  }

  lemma NoTail(pl: Platform, p: Package)
    ensures TornTail(pl, p, [])
  {
  }

  lemma QuotaBound(pl: Platform, p: Package, w: Snapshot)
    requires Sound(pl, p, w)
    ensures p.config.quota <= MAXIMUM_QUOTA
  {
    hide EntriesValid;
  }

  /** Opening again after the repair gives the same package, and repairs nothing. */
  lemma OpensAgain(pl: Platform, d: Disk, p: Package, w: Snapshot, once: Disk)
    requires Lawful(pl) && Holds(pl, d, p, w)
    requires Opening(pl, d).Ok? && once == Repaired(d, Opening(pl, d).value.kept)
    ensures Opening(pl, once) == Ok(Opened(p, w, |once.journal|)) && Repaired(once, |once.journal|) == once
  {
    hide Sound, Lawful, Opening, Layout, Holds, HoldsClean, Repaired;
    OpensTo(pl, d, p, w);
    CleanOpens(pl, once, p, w);
    CleanRepair(pl, once, p, w);
  }

  lemma CleanRepair(pl: Platform, d: Disk, p: Package, w: Snapshot)
    requires HoldsClean(pl, d, p, w)
    ensures Repaired(d, |d.journal|) == d
  {
    hide Sound, Layout;
    assert d.journal[..|d.journal|] == d.journal;
  }

  lemma CleanHolds(pl: Platform, d: Disk, p: Package, w: Snapshot)
    requires HoldsClean(pl, d, p, w)
    ensures Holds(pl, d, p, w)
  {
    hide Sound, Layout, TornTail;
    var c, a :| Layout(pl, d, p, c, a, []);
    NoTail(pl, p);
  }

  lemma CleanOpens(pl: Platform, d: Disk, p: Package, w: Snapshot)
    requires Lawful(pl) && HoldsClean(pl, d, p, w)
    ensures Opening(pl, d) == Ok(Opened(p, w, |d.journal|))
  {
    hide Sound, Lawful, ReadFrame, Frame, PackageBytes, WorldAt, JournalFrames, TornTail, Selected, ScanJournal, Cut;
    var c, a :| Layout(pl, d, p, c, a, []);
    var frames := JournalFrames(pl, p, a, |p.entries|);
    QuotaBound(pl, p, w);
    NoTail(pl, p);
    SelectedReads(pl, p, w, c);
    JournalSize(pl, p, w, a, []);
    ScanFrames(pl, p, w, c, a, a, |p.entries|, []);
    CutWhole(pl, p, w);
    WorldAtEnd(pl, p, w);
    assert ScanAt(pl, p, w, c, a, a) == Scan(None, Cut(pl, p, c), WorldAt(pl, p, w, c));
    assert frames + [] == frames;
  }

  /** Complete frames one after the other, each with its payload and high-water mark. */
  function Chain(pl: Platform, frames: seq<(Bytes, nat)>): Bytes {
    if frames == [] then [] else FrameBytes(pl, frames[0].0, frames[0].1) + Chain(pl, frames[1..])
  }

  /** Whatever complete frames come before it, and whatever they say, the loop does not get past a damaged one. */
  lemma {:induction false} DamageFound(pl: Platform, frames: seq<(Bytes, nat)>, damaged: Bytes, selected: Package, scan: Scan)
    requires forall i :: 0 <= i < |frames| ==> |frames[i].0| <= PACKAGE_LIMIT && frames[i].1 <= COMMIT_LIMIT
    requires damaged != [] && ReadFrame(pl, damaged).Corrupt?
    ensures ScanJournal(pl, Chain(pl, frames) + damaged, selected, scan).None?
    decreases |frames|
  {
    hide ReadFrame, FrameBytes, ScanFrame;
    if frames == [] {
      assert Chain(pl, frames) + damaged == damaged;
    } else {
      var (payload, high) := frames[0];
      var f, others := FrameBytes(pl, payload, high), Chain(pl, frames[1..]);
      Flat2(f, others, damaged);
      FrameReads(pl, payload, high, others + damaged);
      var found := Whole(payload, high, |f|);
      if ScanFrame(pl, selected, scan, found).Some? {
        DamageFound(pl, frames[1..], damaged, selected, ScanFrame(pl, selected, scan, found).value);
        ScanOn(pl, f, others + damaged, selected, scan, payload, high);
      } else {
        assert (f + (others + damaged))[|f|..] == others + damaged;
      }
    }
  }

  /** Changing the magic, the length or the sequence of any complete frame of the journal makes opening fail,
      instead of passing that frame off as an incomplete tail. */
  lemma {:induction false} TamperedJournal(pl: Platform, d: Disk, frames: seq<(Bytes, nat)>, payload: Bytes, high: nat, head: Bytes, rest: Bytes)
    requires forall i :: 0 <= i < |frames| ==> |frames[i].0| <= PACKAGE_LIMIT && frames[i].1 <= COMMIT_LIMIT
    requires Damaged(pl, payload, high, head)
    requires d.journal == Chain(pl, frames) + (head + FrameBytes(pl, payload, high)[20..] + rest)
    ensures Opening(pl, d) == Err("CORRUPT_STORE")
  {
    hide ReadFrame, FrameBytes, Selected, Damaged, ScanJournal, Chain;
    var damaged := head + FrameBytes(pl, payload, high)[20..] + rest;
    TamperedHeader(pl, payload, high, head, rest);
    DamagedLength(pl, payload, high, head);
    var selected := Selected(pl, d.checkpoint);
    if selected.Some? {
      var (p, w) := selected.value;
      DamageFound(pl, frames, damaged, p, Scan(None, p, w));
    }
  }

  lemma DamagedLength(pl: Platform, payload: Bytes, high: nat, head: Bytes)
    requires Damaged(pl, payload, high, head)
    ensures |head| == 20
  {
  }

  /** So does changing them in the checkpoint. */
  lemma TamperedCheckpoint(pl: Platform, d: Disk, payload: Bytes, high: nat, head: Bytes)
    requires Damaged(pl, payload, high, head)
    requires d.checkpoint == head + FrameBytes(pl, payload, high)[20..]
    ensures Opening(pl, d) == Err("CORRUPT_STORE")
  {
    hide ReadFrame, FrameBytes, ScanJournal;
    TamperedHeader(pl, payload, high, head, []);
    assert head + FrameBytes(pl, payload, high)[20..] + [] == head + FrameBytes(pl, payload, high)[20..];
  }

  /** In particular this holds of every frame the store itself has written: a store whose directory holds a package
      does not open once the header of any of its journal frames is changed. */
  lemma TamperedFrame(pl: Platform, d: Disk, p: Package, w: Snapshot, a: nat, k: nat, head: Bytes)
    requires Lawful(pl) && Sound(pl, p, w) && a <= k < |p.entries|
    requires Damaged(pl, PackageBytes(pl, Cut(pl, p, k + 1)), k + 1, head)
    requires
      var written := Frame(pl, Cut(pl, p, k + 1));
      d.journal == JournalFrames(pl, p, a, k) + (head + written[20..] + JournalFrames(pl, p, k + 1, |p.entries|))
    ensures Opening(pl, d) == Err("CORRUPT_STORE")
  {
    hide Sound, Lawful, Opening, FrameBytes, PackageBytes, JournalFrames, Damaged, Chain, Frame;
    JournalChain(pl, p, w, a, k);
    CutFrame(pl, p, w, k + 1);
    TamperedJournal(pl, d, FramesOf(pl, p, a, k), PackageBytes(pl, Cut(pl, p, k + 1)), k + 1, head, JournalFrames(pl, p, k + 1, |p.entries|));
  }

  function FramesOf(pl: Platform, p: Package, a: nat, n: nat): seq<(Bytes, nat)>
    requires n <= |p.entries|
    decreases n - a
  {
    if a >= n then [] else [(PackageBytes(pl, Cut(pl, p, a + 1)), a + 1)] + FramesOf(pl, p, a + 1, n)
  }

  lemma {:induction false} JournalChain(pl: Platform, p: Package, w: Snapshot, a: nat, n: nat)
    requires Lawful(pl) && Sound(pl, p, w) && n <= |p.entries|
    ensures Chain(pl, FramesOf(pl, p, a, n)) == JournalFrames(pl, p, a, n)
    ensures forall i :: 0 <= i < |FramesOf(pl, p, a, n)| ==>
      |FramesOf(pl, p, a, n)[i].0| <= PACKAGE_LIMIT && FramesOf(pl, p, a, n)[i].1 <= COMMIT_LIMIT
    decreases n - a
  {
    hide Sound, Lawful, FrameBytes, PackageBytes, Cut, Frame;
    if a < n {
      JournalChain(pl, p, w, a + 1, n);
      CutFrame(pl, p, w, a + 1);
      var all, others := FramesOf(pl, p, a, n), FramesOf(pl, p, a + 1, n);
      assert all[0] == (PackageBytes(pl, Cut(pl, p, a + 1)), a + 1) && all[1..] == others;
    } else {
      assert FramesOf(pl, p, a, n) == [];
    }
  }

  lemma CutFrame(pl: Platform, p: Package, w: Snapshot, k: nat)
    requires Lawful(pl) && Sound(pl, p, w) && k <= |p.entries|
    ensures |PackageBytes(pl, Cut(pl, p, k))| <= PACKAGE_LIMIT && k <= COMMIT_LIMIT
    ensures Frame(pl, Cut(pl, p, k)) == FrameBytes(pl, PackageBytes(pl, Cut(pl, p, k)), k)
  {
    hide Sound, Lawful, FrameBytes, PackageBytes;
    CutSound(pl, p, w, k);
    FrameFits(pl, Cut(pl, p, k), WorldAt(pl, p, w, k));
  }

  // What each disk step leaves

  /** Appending the frame of the next commit, completely: the directory holds the longer package. */
  lemma AppendHolds(pl: Platform, d: Disk, p: Package, w: Snapshot, q: Package, v: Snapshot)
    requires HoldsClean(pl, d, p, w) && Sound(pl, q, v) && High(q) == High(p) + 1 && Extends(p, q)
    requires Used(d) + |Frame(pl, q)| <= q.config.quota
    ensures HoldsClean(pl, d.(journal := d.journal + Frame(pl, q)), q, v)
  {
    hide Sound, Frame, Cut, JournalFrames;
    var c, a :| Layout(pl, d, p, c, a, []);
    var n := |p.entries|;
    ExtendsConfig(p, q);
    CutWhole(pl, q, v);
    FramesGrow(pl, p, q, a, n);
    SameCut(pl, p, q, c);
    var frames := JournalFrames(pl, p, a, n);
    assert d.journal == frames + [] == frames;
    assert d.journal + Frame(pl, q) == JournalFrames(pl, q, a, n + 1) + [];
    assert Layout(pl, d.(journal := d.journal + Frame(pl, q)), q, c, a, []);
  }

  lemma ExtendsConfig(p: Package, q: Package)
    requires Extends(p, q)
    ensures p.config == q.config && |p.entries| <= |q.entries|
  {
  }

  lemma SameCut(pl: Platform, p: Package, q: Package, k: nat)
    requires Extends(p, q) && k <= |p.entries|
    ensures Cut(pl, p, k) == Cut(pl, q, k)
  {
    assert p.entries[..k] == q.entries[..k];
  }

  lemma {:induction false} FramesGrow(pl: Platform, p: Package, q: Package, a: nat, n: nat)
    requires Extends(p, q) && n == |p.entries| && |q.entries| == n + 1 && a <= n
    ensures JournalFrames(pl, q, a, n + 1) == JournalFrames(pl, p, a, n) + Frame(pl, Cut(pl, q, n + 1))
    decreases n - a
  {
    hide Frame;
    if a < n {
      FramesGrow(pl, p, q, a + 1, n);
      SameCut(pl, p, q, a + 1);
      Flat2(Frame(pl, Cut(pl, p, a + 1)), JournalFrames(pl, p, a + 1, n), Frame(pl, Cut(pl, q, n + 1)));
    } else {
      var last := Frame(pl, Cut(pl, q, n + 1));
      assert JournalFrames(pl, q, n + 1, n + 1) == [];
      assert last + [] == last == [] + last;
    }
  }

  /** Appending only part of it: the directory still holds the shorter package. */
  lemma TornHolds(pl: Platform, d: Disk, p: Package, w: Snapshot, q: Package, k: nat)
    requires HoldsClean(pl, d, p, w) && PackageFits(q) && High(q) == High(p) + 1
    requires k < |Frame(pl, q)| && Used(d) + |Frame(pl, q)| <= p.config.quota
    ensures Holds(pl, d.(journal := d.journal + Frame(pl, q)[..k]), p, w)
  {
    hide Sound, Frame, PackageFits, Cut, JournalFrames;
    var c, a :| Layout(pl, d, p, c, a, []);
    var tail := Frame(pl, q)[..k];
    assert TornBy(pl, p, tail, q);
    var frames := JournalFrames(pl, p, a, |p.entries|);
    assert d.journal == frames + [] == frames;
    assert Layout(pl, d.(journal := d.journal + tail), p, c, a, tail);
  }

  /** A partly or completely written scratch file changes nothing that is held. */
  lemma ScratchHolds(pl: Platform, d: Disk, p: Package, w: Snapshot, scratch: Bytes)
    requires HoldsClean(pl, d, p, w) && |scratch| <= FRAME_LIMIT && Used(d) + |scratch| <= p.config.quota
    ensures Holds(pl, d.(scratch := Some(scratch)), p, w)
  {
    hide Sound, Frame, Cut, JournalFrames, TornTail;
    var c, a :| Layout(pl, d, p, c, a, []);
    NoTail(pl, p);
    assert Layout(pl, d.(scratch := Some(scratch)), p, c, a, []);
  }

  /** Selecting the new checkpoint while the journal still holds the old frames. */
  lemma ReplaceHolds(pl: Platform, d: Disk, p: Package, w: Snapshot)
    requires HoldsClean(pl, d, p, w) && Used(d) + |Frame(pl, p)| <= p.config.quota
    ensures HoldsClean(pl, d.(checkpoint := Frame(pl, p), scratch := None), p, w)
  {
    hide Sound, Frame, Cut, JournalFrames;
    var c, a :| Layout(pl, d, p, c, a, []);
    CutWhole(pl, p, w);
    assert Layout(pl, d.(checkpoint := Frame(pl, p), scratch := None), p, |p.entries|, a, []);
  }

  /** Reclaiming the journal after that. */
  lemma ReclaimHolds(pl: Platform, d: Disk, p: Package, w: Snapshot)
    requires HoldsClean(pl, d, p, w) && d.checkpoint == Frame(pl, p)
    ensures HoldsClean(pl, d.(journal := []), p, w)
  {
    hide Sound, Frame;
    CutWhole(pl, p, w);
    assert Layout(pl, d.(journal := []), p, |p.entries|, |p.entries|, []);
  }
}
