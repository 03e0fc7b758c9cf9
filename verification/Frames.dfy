/** Journal frames: a header with its own digest, the payload, a digest over both, and an end marker. */
module Frames {
  import opened Prelude
  import opened Texts
  import opened Readers
  import opened Worlds
  import opened Commands
  import opened Package
  import opened Durable

  const FRAME_MAGIC := Ascii("OWJRN001")
  const END_MAGIC := Ascii("OWEND001")
  const HEADER_SIZE := 52
  const FRAME_OVERHEAD := 92
  const FRAME_LIMIT := PACKAGE_LIMIT + FRAME_OVERHEAD
  const JOURNAL_LIMIT := COMMIT_LIMIT * FRAME_LIMIT

  function Head(size: nat, high: nat): (h: Bytes)
    ensures |h| == 20
  {
    FRAME_MAGIC + LE(size, 4) + LE(high, 8)
  }

  /** A head and its digest. */
  function SealedHead(pl: Platform, head: Bytes): (h: Bytes)
    ensures |h| == |head| + 32
  {
    head + pl.sha(head)
  }

  function FrameBytes(pl: Platform, payload: Bytes, high: nat): (f: Bytes)
    ensures |f| == |payload| + FRAME_OVERHEAD
  {
    var body := SealedHead(pl, Head(|payload|, high)) + payload;
    body + pl.sha(body) + END_MAGIC
  }

  function Frame(pl: Platform, p: Package): Bytes {
    FrameBytes(pl, PackageBytes(pl, p), High(p))
  }

  /** What is found at the front of some bytes. */
  datatype Found = Corrupt | Torn | Whole(payload: Bytes, high: nat, size: nat)

  /** Reads one frame. The header is authenticated before its length is believed, so a damaged length
      cannot turn a complete frame into an incomplete one. */
  function ReadFrame(pl: Platform, b: Bytes): (r: Found)
    ensures r.Whole? ==> FRAME_OVERHEAD <= r.size <= |b|
  {
    if |b| < HEADER_SIZE then
      if !(if |b| < 8 then b <= FRAME_MAGIC else FRAME_MAGIC <= b) then Corrupt
      else if |b| > 20 && b[20..] != pl.sha(b[..20])[..|b| - 20] then Corrupt
      else Torn
    else if b[20..HEADER_SIZE] != pl.sha(b[..20]) then Corrupt
    else
      var size, high := FromLE(b[8..12]), FromLE(b[12..20]);
      if b[..8] != FRAME_MAGIC || size > PACKAGE_LIMIT || high > COMMIT_LIMIT then Corrupt
      else if |b| < size + FRAME_OVERHEAD then Torn
      else
        var end := HEADER_SIZE + size;
        if b[end..end + 32] != pl.sha(b[..end]) || b[end + 32..end + 40] != END_MAGIC then Corrupt
        else Whole(b[HEADER_SIZE..end], high, end + 40)
  }

  /** The fixed offsets of a frame followed by anything. */
  lemma FrameParts(pl: Platform, payload: Bytes, high: nat, rest: Bytes)
    ensures
      var (f, head) := (FrameBytes(pl, payload, high) + rest, Head(|payload|, high));
      var end := HEADER_SIZE + |payload|;
      && f[..20] == head && f[20..HEADER_SIZE] == pl.sha(head)
      && f[HEADER_SIZE..end] == payload && f[..end] == SealedHead(pl, head) + payload
      && f[end..end + 32] == pl.sha(SealedHead(pl, head) + payload) && f[end + 32..end + 40] == END_MAGIC
  {
    var (f, head) := (FrameBytes(pl, payload, high) + rest, Head(|payload|, high));
    var body := SealedHead(pl, head) + payload;
    assert f == head + (pl.sha(head) + payload + pl.sha(body) + END_MAGIC + rest);
    assert f == body + (pl.sha(body) + END_MAGIC + rest);
  }

  lemma HeadParts(size: nat, high: nat)
    requires size <= PACKAGE_LIMIT && high <= COMMIT_LIMIT
    ensures
      var h := Head(size, high);
      h[..8] == FRAME_MAGIC && FromLE(h[8..12]) == size && FromLE(h[12..20]) == high
  {
    var h := Head(size, high);
    assert h[8..12] == LE(size, 4) && h[12..20] == LE(high, 8);
    Widths();
    ReadBackLE(size, 4);
    ReadBackLE(high, 8);
  }

  lemma HeadInside(b: Bytes, h: Bytes)
    requires |h| == 20 && |b| >= 20 && b[..20] == h
    ensures b[..8] == h[..8] && b[8..12] == h[8..12] && b[12..20] == h[12..20]
  {
    assert b[..8] == b[..20][..8] && b[8..12] == b[..20][8..12] && b[12..20] == b[..20][12..20];
  }

  /** A complete frame is found whole, whatever follows it. */
  lemma FrameReads(pl: Platform, payload: Bytes, high: nat, rest: Bytes)
    requires |payload| <= PACKAGE_LIMIT && high <= COMMIT_LIMIT
    ensures ReadFrame(pl, FrameBytes(pl, payload, high) + rest) == Whole(payload, high, |FrameBytes(pl, payload, high)|)
  {
    FrameParts(pl, payload, high, rest);
    HeadParts(|payload|, high);
    var b := FrameBytes(pl, payload, high) + rest;
    HeadInside(b, Head(|payload|, high));
    hide FrameBytes, LE, FromLE, Head, SealedHead;
  }

  /** Any strict prefix of a frame is an incomplete tail, never corruption. */
  lemma PrefixTorn(pl: Platform, payload: Bytes, high: nat, tail: Bytes)
    requires |payload| <= PACKAGE_LIMIT && high <= COMMIT_LIMIT
    requires tail < FrameBytes(pl, payload, high)
    ensures ReadFrame(pl, tail) == Torn
  {
    FrameParts(pl, payload, high, []);
    HeadParts(|payload|, high);
    var f, n := FrameBytes(pl, payload, high), |tail|;
    assert f + [] == f && tail == f[..n];
    hide FrameBytes, LE, FromLE, Head, SealedHead;
    if n < HEADER_SIZE {
      assert f[..8] == f[..20][..8];
      assert if n < 8 then tail == FRAME_MAGIC[..n] else tail[..8] == FRAME_MAGIC;
      if n > 20 {
        assert tail[..20] == f[..20] && tail[20..] == f[20..HEADER_SIZE][..n - 20];
      }
    } else {
      assert tail[..20] == f[..20] && tail[20..HEADER_SIZE] == f[20..HEADER_SIZE];
      HeadInside(tail, f[..20]);
    }
  }

  /** Other octets where the magic, the length and the sequence of a frame stand. A length or a sequence shows
      by the digest of the header, a magic even without it. */
  predicate Damaged(pl: Platform, payload: Bytes, high: nat, head: Bytes) {
    |head| == 20 && (head[..8] != FRAME_MAGIC || pl.sha(head) != pl.sha(Head(|payload|, high)))
  }

  /** A complete frame whose magic, length or sequence was changed is corrupt, unless the two headers
      have the same magic and share their digest; it is never taken for an incomplete tail. */
  lemma TamperedHeader(pl: Platform, payload: Bytes, high: nat, head: Bytes, rest: Bytes)
    requires Damaged(pl, payload, high, head)
    ensures ReadFrame(pl, head + FrameBytes(pl, payload, high)[20..] + rest).Corrupt?
  {
    FrameParts(pl, payload, high, []);
    var f := FrameBytes(pl, payload, high);
    var b := head + f[20..] + rest;
    assert f + [] == f && b[..20] == head && b[20..HEADER_SIZE] == f[20..HEADER_SIZE];
  }
}
