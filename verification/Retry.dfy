/** The receipt window of one principal: four retained receipts, each sequence consumed once. */
module Retry {
  import opened Prelude
  import opened Texts
  import opened Commands

  const WINDOW := 4
  const PAYLOAD_LIMIT := 16384
  const RECEIPT_FIELDS := 8192
  const LIFETIME := 2000

  /** A consumed sequence; zero marks an empty place. */
  datatype Retained = Retained(sequence: u64, payload: Bytes, receipt: Option<Receipt>, deadline: nat)

  const BLANK := Retained(0, [], None, 0)

  datatype Ring = Ring(entries: seq<Retained>, next: u64, exhausted: bool)

  /** What the trusted callback does when it is called. */
  datatype Callback = Missing | Returns(receipt: Receipt) | Throws

  datatype Answer = Answer(receipt: Option<Receipt>, code: string, replayed: bool)

  datatype Executed = Executed(ring: Ring, answer: Answer, ran: bool)

  function BindingFields(bs: seq<Binding>): nat {
    if bs == [] then 0 else |bs[0].temporaryId| + |bs[0].worldId| + |bs[0].uuid| + BindingFields(bs[1..])
  }

  function ErrorFields(es: seq<Error>): nat {
    if es == [] then 0 else |es[0].code| + ErrorFields(es[1..])
  }

  /** A receipt the window may retain. */
  predicate Retainable(r: Receipt) {
    && |r.transactionId| <= 36 && |r.status| <= 16 && r.durability == VOLATILE
    && |r.created| <= 4 && |r.errors| <= 4
    && (forall i :: 0 <= i < |r.created| ==>
          |r.created[i].temporaryId| <= 64 && |r.created[i].worldId| <= 64 && |r.created[i].uuid| == 36)
    && (forall i :: 0 <= i < |r.errors| ==> |r.errors[i].code| <= 64)
    && |r.transactionId| + |r.status| + |r.durability| + BindingFields(r.created) + ErrorFields(r.errors) <= RECEIPT_FIELDS
  }

  function Alive(e: Retained, now: nat): Retained {
    if e.sequence != 0 && now >= e.deadline then BLANK else e
  }

  function Cleared(entries: seq<Retained>, now: nat): (r: seq<Retained>)
    ensures |r| == |entries|
  {
    seq(|entries|, i requires 0 <= i < |entries| => Alive(entries[i], now))
  }

  function Find(entries: seq<Retained>, sequence: u64, from: nat): (r: nat)
    requires from <= |entries|
    ensures from <= r <= |entries|
    ensures r < |entries| ==> entries[r].sequence == sequence
    ensures forall k :: from <= k < r ==> entries[k].sequence != sequence
    decreases |entries| - from
  {
    if from == |entries| || entries[from].sequence == sequence then from else Find(entries, sequence, from + 1)
  }

  function Replay(entries: seq<Retained>, sequence: u64, canonical: Bytes): Answer {
    var at := Find(entries, sequence, 0);
    if at == |entries| then Answer(None, "REQUIRES_RESYNC", false)
    else if entries[at].payload != canonical then Answer(None, "IDEMPOTENCY_MISMATCH", false)
    else if entries[at].receipt.None? then Answer(None, "REQUIRES_RESYNC", false)
    else Answer(entries[at].receipt, "", true)
  }

  /** The receipt of a run that may be retained. */
  function Produced(callback: Callback): Option<Receipt> {
    if callback.Returns? && Retainable(callback.receipt) then Some(callback.receipt) else None
  }

  /** One request at time `now`: expired receipts go first; a new sequence is consumed before the callback runs. */
  function Execute(r: Ring, now: nat, sequence: u64, canonical: Bytes, callback: Callback): Executed
    requires |r.entries| == WINDOW
  {
    var kept := r.(entries := Cleared(r.entries, now));
    if sequence == 0 || (!r.exhausted && sequence > r.next) then Executed(kept, Answer(None, "REQUIRES_RESYNC", false), false)
    else if sequence < r.next || r.exhausted then Executed(kept, Replay(kept.entries, sequence, canonical), false)
    else if canonical == [] || |canonical| > PAYLOAD_LIMIT || callback.Missing? then
      Executed(kept, Answer(None, "BUDGET_EXCEEDED", false), false)
    else
      var produced := Produced(callback);
      var entry := Retained(sequence, canonical, produced, now + LIFETIME);
      Executed(Ring(kept.entries[(sequence - 1) % WINDOW := entry], if r.next == U64_MAX then r.next else r.next + 1, r.next == U64_MAX),
               if produced.Some? then Answer(produced, "", false) else Answer(None, "REQUIRES_RESYNC", false), true)
  }

  const RESET := Ring([BLANK, BLANK, BLANK, BLANK], 1, false)

  /** How many sequences have been consumed: 1 up to this one. */
  function Consumed(r: Ring): int {
    if r.exhausted then r.next else r.next - 1
  }

  /** The entry for sequence s sits at index (s - 1) mod 4 and is one of the last four consumed. */
  predicate Placed(r: Ring, i: nat)
    requires i < |r.entries|
  {
    var s := r.entries[i].sequence;
    s != 0 ==> (s - 1) % WINDOW == i && Consumed(r) - WINDOW < s <= Consumed(r)
  }

  predicate RingValid(r: Ring) {
    && |r.entries| == WINDOW && r.next >= 1 && (r.exhausted ==> r.next == U64_MAX)
    && forall i :: 0 <= i < WINDOW ==> Placed(r, i)
  }

  /** A sequence runs exactly when it is the next one, and running consumes it; nothing else is consumed.
      Retained entries are kept, cleared, or written by the run. */
  lemma ExecuteKeeps(r: Ring, now: nat, sequence: u64, canonical: Bytes, callback: Callback)
    requires RingValid(r)
    ensures
      var x := Execute(r, now, sequence, canonical, callback);
      && RingValid(x.ring)
      && (x.ran <==> sequence == Consumed(r) + 1 && 0 < |canonical| <= PAYLOAD_LIMIT && !callback.Missing?)
      && Consumed(x.ring) == Consumed(r) + (if x.ran then 1 else 0)
      && (forall i :: 0 <= i < WINDOW && x.ring.entries[i].sequence != 0 ==>
            || x.ring.entries[i] == r.entries[i]
            || (x.ran && x.ring.entries[i] == Retained(sequence, canonical, Produced(callback), now + LIFETIME)))
  {
    var x := Execute(r, now, sequence, canonical, callback);
    forall i | 0 <= i < WINDOW
      ensures Placed(x.ring, i)
    {
      assert Placed(r, i);
    }
  }

  /** A receipt is answered exactly when this request just produced it, or when the retained, unexpired entry
      of this sequence holds it for this very payload. */
  lemma AnswerIsOwn(r: Ring, now: nat, sequence: u64, canonical: Bytes, callback: Callback)
    requires RingValid(r)
    ensures
      var x := Execute(r, now, sequence, canonical, callback);
      && (x.answer.receipt.Some? <==>
            || (x.ran && Produced(callback).Some?)
            || (&& !x.ran && 1 <= sequence <= Consumed(r)
                && var e := r.entries[(sequence - 1) % WINDOW];
                   e.sequence == sequence && now < e.deadline && e.payload == canonical && e.receipt.Some?))
      && (x.answer.receipt.Some? && x.ran ==> x.answer.receipt == Produced(callback) && !x.answer.replayed)
      && (x.answer.receipt.Some? && !x.ran ==>
            x.answer.receipt == r.entries[(sequence - 1) % WINDOW].receipt && x.answer.replayed)
  {
    var entries := Cleared(r.entries, now);
    var at := Find(entries, sequence, 0);
    assert forall i :: 0 <= i < WINDOW ==> Placed(r, i);
    if 1 <= sequence <= Consumed(r) {
      var own := (sequence - 1) % WINDOW;
      if at < WINDOW {
        assert Placed(r, at) && entries[at] == r.entries[at];
        assert at == own;
      }
      assert entries[own].sequence == sequence ==> at == own;
    }
  }

  /** What becomes of every place: the run takes its own, expiry empties the others, and all the rest stay as they were. */
  lemma ExecuteExact(r: Ring, now: nat, sequence: u64, canonical: Bytes, callback: Callback, i: nat)
    requires RingValid(r) && i < WINDOW
    ensures
      var x := Execute(r, now, sequence, canonical, callback);
      && (x.ran && i == (sequence - 1) % WINDOW ==> x.ring.entries[i] == Retained(sequence, canonical, Produced(callback), now + LIFETIME))
      && (!(x.ran && i == (sequence - 1) % WINDOW) && now < r.entries[i].deadline ==> x.ring.entries[i] == r.entries[i])
      && (!(x.ran && i == (sequence - 1) % WINDOW) && now >= r.entries[i].deadline ==> x.ring.entries[i].sequence == 0)
  {
  }

  /** Which refusal is told: another payload under a retained sequence, a payload that cannot run, or anything else. */
  lemma RefusalExact(r: Ring, now: nat, sequence: u64, canonical: Bytes, callback: Callback)
    requires RingValid(r)
    ensures
      var x := Execute(r, now, sequence, canonical, callback);
      x.answer.receipt.None? ==>
        x.answer.code ==
          if 1 <= sequence <= Consumed(r) && r.entries[(sequence - 1) % WINDOW].sequence == sequence
             && now < r.entries[(sequence - 1) % WINDOW].deadline && r.entries[(sequence - 1) % WINDOW].payload != canonical
          then "IDEMPOTENCY_MISMATCH"
          else if sequence == Consumed(r) + 1 && !x.ran then "BUDGET_EXCEEDED"
          else "REQUIRES_RESYNC"
  {
    AnswerIsOwn(r, now, sequence, canonical, callback);
    var entries := Cleared(r.entries, now);
    var at := Find(entries, sequence, 0);
    assert forall i :: 0 <= i < WINDOW ==> Placed(r, i);
    if 1 <= sequence <= Consumed(r) {
      var own := (sequence - 1) % WINDOW;
      if at < WINDOW {
        assert Placed(r, at) && entries[at] == r.entries[at];
        assert at == own;
      }
      assert entries[own].sequence == sequence ==> at == own;
    }
  }

  // Sequences of requests

  datatype Request = Request(now: nat, sequence: u64, canonical: Bytes, callback: Callback)

  /** The window after the first `n` requests. */
  function After(r: Ring, requests: seq<Request>, n: nat): (t: Ring)
    requires |r.entries| == WINDOW && n <= |requests|
    ensures |t.entries| == WINDOW
  {
    if n == 0 then r
    else
      var q := requests[n - 1];
      Execute(After(r, requests, n - 1), q.now, q.sequence, q.canonical, q.callback).ring
  }

  lemma {:induction false} AfterValid(r: Ring, requests: seq<Request>, n: nat)
    requires RingValid(r) && n <= |requests|
    ensures RingValid(After(r, requests, n)) && Consumed(r) <= Consumed(After(r, requests, n))
  {
    hide Execute, RingValid, Consumed;
    if n > 0 {
      AfterValid(r, requests, n - 1);
      var q := requests[n - 1];
      ValidSize(r);
      ExecuteKeeps(After(r, requests, n - 1), q.now, q.sequence, q.canonical, q.callback);
    } else {
      ValidSize(r);
    }
  }

  lemma ValidSize(r: Ring)
    requires RingValid(r)
    ensures |r.entries| == WINDOW
  {
  }

  /** An entry stays until it expires or four further sequences have been consumed. */
  lemma {:induction false} EntryStays(r: Ring, requests: seq<Request>, n: nat, i: nat)
    requires RingValid(r) && i < WINDOW && n <= |requests| && r.entries[i].sequence != 0
    requires forall k :: 0 <= k < n ==> requests[k].now < r.entries[i].deadline
    requires Consumed(After(r, requests, n)) < r.entries[i].sequence + WINDOW
    ensures After(r, requests, n).entries[i] == r.entries[i]
    decreases n
  {
    hide Execute;
    if n > 0 {
      var (before, q) := (After(r, requests, n - 1), requests[n - 1]);
      AfterValid(r, requests, n - 1);
      ExecuteKeeps(before, q.now, q.sequence, q.canonical, q.callback);
      EntryStays(r, requests, n - 1, i);
      ExecuteExact(before, q.now, q.sequence, q.canonical, q.callback, i);
      assert Placed(before, i);
      OtherPlace(r.entries[i].sequence, q.sequence, i);
    }
  }

  /** Of five consecutive sequences only the first and the last share a place. */
  lemma OtherPlace(s: u64, q: u64, i: nat)
    requires s >= 1 && (s - 1) % WINDOW == i
    ensures s < q < s + WINDOW ==> (q - 1) % WINDOW != i
  {
  }

  /** A receipt is given again: whoever sends a request that ran once more, with the same payload, before it has expired and
      before four later ones have run, gets its receipt, whatever else was sent in between; and it does not run again. */
  lemma {:induction false} ReceiptReplayed(r: Ring, first: Request, between: seq<Request>, again: Request)
    requires RingValid(r)
    requires
      var x := Execute(r, first.now, first.sequence, first.canonical, first.callback);
      && x.ran && x.answer.receipt.Some?
      && Consumed(After(x.ring, between, |between|)) < first.sequence + WINDOW
    requires again.sequence == first.sequence && again.canonical == first.canonical
    requires again.now < first.now + LIFETIME && forall k :: 0 <= k < |between| ==> between[k].now < first.now + LIFETIME
    ensures
      var x := Execute(r, first.now, first.sequence, first.canonical, first.callback);
      var y := Execute(After(x.ring, between, |between|), again.now, again.sequence, again.canonical, again.callback);
      y.answer == Answer(x.answer.receipt, "", true) && !y.ran
  {
    var x := Execute(r, first.now, first.sequence, first.canonical, first.callback);
    var i := (first.sequence - 1) % WINDOW;
    ExecuteKeeps(r, first.now, first.sequence, first.canonical, first.callback);
    AnswerIsOwn(r, first.now, first.sequence, first.canonical, first.callback);
    ExecuteExact(r, first.now, first.sequence, first.canonical, first.callback, i);
    hide Execute;
    EntryStays(x.ring, between, |between|, i);
    AfterValid(x.ring, between, |between|);
    var t := After(x.ring, between, |between|);
    ExecuteKeeps(t, again.now, again.sequence, again.canonical, again.callback);
    AnswerIsOwn(t, again.now, again.sequence, again.canonical, again.callback);
    ReplayedAnswer(t, again.now, again.sequence, again.canonical, again.callback);
  }

  lemma ReplayedAnswer(r: Ring, now: nat, sequence: u64, canonical: Bytes, callback: Callback)
    requires RingValid(r)
    ensures
      var x := Execute(r, now, sequence, canonical, callback);
      x.answer.receipt.Some? ==> x.answer.code == ""
  {
    hide Cleared;
  }

  class Window {
    const entries: array<Retained>
    var next: u64
    var exhausted: bool

    ghost function Now(): Ring
      reads this, entries
    {
      Ring(entries[..], next, exhausted)
    }

    ghost predicate Valid()
      reads this, entries
    {
      entries.Length == WINDOW && RingValid(Now())
    }

    constructor ()
      ensures Valid() && Now() == RESET && fresh(entries)
    {
      entries := new Retained[WINDOW](_ => BLANK);
      next, exhausted := 1, false;
    }

    method Reset()
      requires Valid()
      modifies this, entries
      ensures Valid() && Now() == RESET
    {
      forall i | 0 <= i < entries.Length {
        entries[i] := BLANK;
      }
      next, exhausted := 1, false;
    }

    method ClearExpired(now: nat)
      requires entries.Length == WINDOW
      modifies entries
      ensures entries[..] == Cleared(old(entries[..]), now)
    {
      var i := 0;
      while i < entries.Length
        invariant i <= entries.Length
        invariant forall k :: 0 <= k < i ==> entries[k] == Alive(old(entries[k]), now)
        invariant forall k :: i <= k < entries.Length ==> entries[k] == old(entries[k])
      {
        if entries[i].sequence != 0 && now >= entries[i].deadline {
          entries[i] := BLANK;
        }
        i := i + 1;
      }
    }

    method LookUp(sequence: u64, canonical: Bytes) returns (answer: Answer)
      requires entries.Length == WINDOW
      ensures answer == Replay(entries[..], sequence, canonical)
    {
      var i := 0;
      while i < entries.Length
        invariant i <= entries.Length
        invariant forall k :: 0 <= k < i ==> entries[k].sequence != sequence
      {
        if entries[i].sequence == sequence {
          FindFirst(entries[..], sequence, i);
          if entries[i].payload != canonical {
            return Answer(None, "IDEMPOTENCY_MISMATCH", false);
          }
          if entries[i].receipt.None? {
            return Answer(None, "REQUIRES_RESYNC", false);
          }
          return Answer(entries[i].receipt, "", true);
        }
        i := i + 1;
      }
      answer := Answer(None, "REQUIRES_RESYNC", false);
    }

    /** Answers one request; `ran` says whether the callback was called. */
    method Run(now: nat, sequence: u64, canonical: Bytes, callback: Callback) returns (answer: Answer, ran: bool)
      requires Valid()
      modifies this, entries
      ensures Valid()
      ensures Executed(Now(), answer, ran) == Execute(old(Now()), now, sequence, canonical, callback)
    {
      ghost var x := Execute(Now(), now, sequence, canonical, callback);
      ExecuteKeeps(Now(), now, sequence, canonical, callback);
      ClearExpired(now);
      ran := false;
      if sequence == 0 || (!exhausted && sequence > next) {
        return Answer(None, "REQUIRES_RESYNC", false), false;
      }
      if sequence < next || exhausted {
        answer := LookUp(sequence, canonical);
        return;
      }
      if canonical == [] || |canonical| > PAYLOAD_LIMIT || callback.Missing? {
        return Answer(None, "BUDGET_EXCEEDED", false), false;
      }
      var at := (sequence - 1) % WINDOW;
      entries[at] := Retained(sequence, canonical, None, now + LIFETIME);
      if next == U64_MAX {
        exhausted := true;
      } else {
        next := next + 1;
      }
      ran := true;
      if callback.Returns? && Retainable(callback.receipt) {
        entries[at] := entries[at].(receipt := Some(callback.receipt));
        assert Now() == x.ring;
        return Answer(Some(callback.receipt), "", false), true;
      }
      assert Now() == x.ring;
      answer := Answer(None, "REQUIRES_RESYNC", false);
    }
  }

  lemma {:induction false} FindFirst(entries: seq<Retained>, sequence: u64, at: nat)
    requires at < |entries| && entries[at].sequence == sequence && forall k :: 0 <= k < at ==> entries[k].sequence != sequence
    ensures Find(entries, sequence, 0) == at
  {
  }
}
