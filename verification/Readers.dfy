/** Byte-level readers and writers that advance in place, and what they read as functions of the remaining bytes. */
module Readers {
  import opened Prelude

  /** The next `n` octets, and what follows them. */
  function TakeRaw(b: Bytes, n: nat): Option<(Bytes, Bytes)> {
    if n <= |b| then Some((b[..n], b[n..])) else None
  }

  function TakeInt(b: Bytes, n: nat): Option<(nat, Bytes)> {
    var (raw, rest) :- TakeRaw(b, n);
    Some((FromLE(raw), rest))
  }

  function TakeU32(b: Bytes): (r: Option<(u32, Bytes)>) {
    var (raw, rest) :- TakeRaw(b, 4);
    WriteBackLE(raw);
    Widths();
    Some((FromLE(raw), rest))
  }

  function TakeU64(b: Bytes): (r: Option<(u64, Bytes)>) {
    var (raw, rest) :- TakeRaw(b, 8);
    WriteBackLE(raw);
    Widths();
    Some((FromLE(raw), rest))
  }

  /** A u32 length of at most `maximum`, and that many octets. */
  function TakeText(b: Bytes, maximum: nat): Option<(Bytes, Bytes)> {
    var (n, rest) :- TakeU32(b);
    if n <= maximum then TakeRaw(rest, n) else None
  }

  function TakeMagic(b: Bytes, magic: Bytes): Option<Bytes> {
    if magic <= b then Some(b[|magic|..]) else None
  }

  // Reading is the inverse of writing, both ways.

  lemma RawReads(v: Bytes, rest: Bytes)
    ensures TakeRaw(v + rest, |v|) == Some((v, rest))
  {
    assert (v + rest)[..|v|] == v && (v + rest)[|v|..] == rest;
  }

  lemma {:induction false} U32Reads(v: u32, rest: Bytes)
    ensures TakeU32(LE(v, 4) + rest) == Some((v, rest))
  {
    RawReads(LE(v, 4), rest);
    Widths();
    ReadBackLE(v, 4);
  }

  lemma {:induction false} U64Reads(v: u64, rest: Bytes)
    ensures TakeU64(LE(v, 8) + rest) == Some((v, rest))
  {
    RawReads(LE(v, 8), rest);
    Widths();
    ReadBackLE(v, 8);
  }

  lemma TextReads(t: Bytes, rest: Bytes, maximum: nat)
    requires |t| < U32_LIMIT
    ensures TakeText(Text32(t) + rest, maximum) == if |t| <= maximum then Some((t, rest)) else None
  {
    Flat2(LE(|t|, 4), t, rest);
    U32Reads(|t|, t + rest);
    RawReads(t, rest);
  }

  lemma RawWritten(b: Bytes, n: nat)
    ensures TakeRaw(b, n).Some? ==>
      var (v, rest) := TakeRaw(b, n).value;
      |v| == n && b == v + rest
  {
  }

  lemma U32Written(b: Bytes)
    ensures TakeU32(b).Some? ==>
      var (v, rest) := TakeU32(b).value;
      b == LE(v, 4) + rest && |rest| < |b|
  {
    RawWritten(b, 4);
    if 4 <= |b| {
      WriteBackLE(b[..4]);
    }
  }

  lemma U64Written(b: Bytes)
    ensures TakeU64(b).Some? ==>
      var (v, rest) := TakeU64(b).value;
      b == LE(v, 8) + rest
  {
    RawWritten(b, 8);
    if 8 <= |b| {
      WriteBackLE(b[..8]);
    }
  }

  lemma TextWritten(b: Bytes, maximum: nat)
    ensures TakeText(b, maximum).Some? ==>
      var (t, rest) := TakeText(b, maximum).value;
      b == Text32(t) + rest && |t| <= maximum && |t| < U32_LIMIT
  {
    U32Written(b);
    if TakeText(b, maximum).Some? {
      var (n, after) := TakeU32(b).value;
      var (t, rest) := TakeText(b, maximum).value;
      RawWritten(after, n);
      Flat2(LE(n, 4), t, rest);
    }
  }

  lemma MagicReads(magic: Bytes, rest: Bytes)
    ensures TakeMagic(magic + rest, magic) == Some(rest)
  {
    RawReads(magic, rest);
  }

  lemma MagicWritten(b: Bytes, magic: Bytes)
    ensures TakeMagic(b, magic).Some? ==> b == magic + TakeMagic(b, magic).value
  {
  }

  /** A reader over fixed bytes; a read that fails stops the decoding, so it need not restore `at`. */
  class Reader {
    const bytes: Bytes
    var at: nat

    ghost predicate Valid()
      reads this
    {
      at <= |bytes|
    }

    function Rest(): Bytes
      requires Valid()
      reads this
    {
      bytes[at..]
    }

    constructor (bytes: Bytes)
      ensures Valid() && Rest() == bytes && this.bytes == bytes
    {
      this.bytes, at := bytes, 0;
    }

    method Raw(n: nat) returns (v: Option<Bytes>)
      requires Valid()
      modifies this
      ensures Valid()
      ensures match TakeRaw(old(Rest()), n)
        case Some((raw, rest)) => v == Some(raw) && Rest() == rest
        case None => v == None
    {
      if n > |bytes| - at {
        return None;
      }
      v := Some(bytes[at..at + n]);
      assert bytes[at..][..n] == bytes[at..at + n] && bytes[at..][n..] == bytes[at + n..];
      at := at + n;
    }

    method U32() returns (v: Option<u32>)
      requires Valid()
      modifies this
      ensures Valid()
      ensures match TakeU32(old(Rest()))
        case Some((n, rest)) => v == Some(n) && Rest() == rest
        case None => v == None
    {
      var raw :- Raw(4);
      WriteBackLE(raw);
      Widths();
      v := Some(FromLE(raw));
    }

    method U64() returns (v: Option<u64>)
      requires Valid()
      modifies this
      ensures Valid()
      ensures match TakeU64(old(Rest()))
        case Some((n, rest)) => v == Some(n) && Rest() == rest
        case None => v == None
    {
      var raw :- Raw(8);
      WriteBackLE(raw);
      Widths();
      v := Some(FromLE(raw));
    }

    method Text(maximum: nat) returns (v: Option<Bytes>)
      requires Valid()
      modifies this
      ensures Valid()
      ensures match TakeText(old(Rest()), maximum)
        case Some((t, rest)) => v == Some(t) && Rest() == rest
        case None => v == None
    {
      var n :- U32();
      if n > maximum {
        return None;
      }
      v := Raw(n);
    }

    method Magic(magic: Bytes) returns (v: Option<()>)
      requires Valid()
      modifies this
      ensures Valid()
      ensures match TakeMagic(old(Rest()), magic)
        case Some(rest) => v == Some(()) && Rest() == rest
        case None => v == None
    {
      ghost var before := Rest();
      var raw :- Raw(|magic|);
      assert magic <= before <==> raw == magic;
      v := if raw == magic then Some(()) else None;
    }
  }

  /** A growing buffer; `rest` stands for everything still to be written. */
  class Writer {
    var bytes: Bytes

    constructor ()
      ensures bytes == []
    {
      bytes := [];
    }

    method Raw(v: Bytes, ghost rest: Bytes)
      modifies this
      ensures bytes + rest == old(bytes) + (v + rest)
    {
      Flat2(bytes, v, rest);
      bytes := bytes + v;
    }

    method U32(v: u32, ghost rest: Bytes)
      modifies this
      ensures bytes + rest == old(bytes) + (LE(v, 4) + rest)
    {
      Raw(LE(v, 4), rest);
    }

    method U64(v: u64, ghost rest: Bytes)
      modifies this
      ensures bytes + rest == old(bytes) + (LE(v, 8) + rest)
    {
      Raw(LE(v, 8), rest);
    }

    method Text(v: Bytes, ghost rest: Bytes)
      modifies this
      ensures bytes + rest == old(bytes) + (Text32(v) + rest)
    {
      Raw(Text32(v), rest);
    }
  }
}
