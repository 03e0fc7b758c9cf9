/** What the exchange achieves: when a client prepares, sends and accepts, and that a request gets through. */
module RoundTrips {
  import opened Prelude
  import opened Texts
  import opened Commands
  import Retry
  import opened Exchange

  lemma Sized(s: System)
    requires Keeps(s)
    ensures |s.clients| == |s.calls| && |s.ring.entries| == Retry.WINDOW && Retry.RingValid(s.ring)
  {
    hide RequestsPrepared, RepliesTrue, AcceptedRan, KeysFresh, WindowRemembers;
  }

  // Single steps

  /** A client that may use its next sequence. */
  predicate Ready(s: System, i: nat) {
    && i < |s.clients| && i < |s.calls| && s.calls[i].Idle? && s.clients[i].negotiated
    && !s.clients[i].uncertain && s.clients[i].pending.None? && s.clients[i].next.Some? && s.clients[i].next.value < U64_MAX
  }

  /** A request is prepared exactly by a client that is ready, under its next sequence; it is then the pending one. */
  lemma PrepareExact(s: System, i: nat, payload: Bytes, transactionId: Text)
    requires Keeps(s)
    ensures |s.clients| == |s.calls| && |s.ring.entries| == Retry.WINDOW
    ensures
      var t := Next(s, Prepare(i, payload, transactionId));
      if Ready(s, i) && |payload| <= Retry.PAYLOAD_LIMIT then
        var c := s.clients[i];
        var p := Prepared(|s.prepared|, i, c.epoch, c.next.value, payload, transactionId, c.resyncs);
        t == s.(prepared := s.prepared + [p], clients := s.clients[i := c.(pending := Some(p))])
      else t.prepared == s.prepared && t.requests == s.requests
  {
    hide Keeps;
    Sized(s);
  }

  /** A prepared request goes out exactly when its own client asks for it, is free, and has no other one pending. */
  lemma SubmitExact(s: System, i: nat, serial: nat)
    requires Keeps(s)
    ensures |s.clients| == |s.calls| && |s.ring.entries| == Retry.WINDOW
    ensures
      var t := Next(s, Submit(i, serial));
      if i < |s.clients| && s.calls[i].Idle? && serial < |s.prepared| && s.prepared[serial].owner == i
         && (s.clients[i].pending.None? || s.clients[i].pending == Some(s.prepared[serial]))
      then
        var p := s.prepared[serial];
        && t.requests == s.requests + {Transact(s.conns, p.epoch, p.sequence, p.payload)} && t.conns == s.conns + 1
        && t.calls == s.calls[i := Submitting(s.conns, p)] && t.clients == s.clients[i := s.clients[i].(pending := Some(p))]
      else t == s
  {
    hide Keeps;
    Sized(s);
  }

  /** A receipt is accepted exactly when it answers, over its own connection, the submission the client waits in, and belongs
      to it; the client is then free for its next sequence. Any other answer that is not a refusal leaves the outcome open. */
  lemma ReceiveExact(s: System, i: nat, reply: Reply)
    requires Keeps(s)
    ensures |s.clients| == |s.calls| && |s.ring.entries| == Retry.WINDOW
    ensures
      var t := Next(s, Receive(i, reply));
      var waits := i < |s.clients| && s.calls[i].Submitting? && reply in s.replies && reply.conn == s.calls[i].conn;
      && (waits && Acceptable(s.clients[i], s.calls[i].p, reply.response) ==>
            && t.accepted == s.accepted + [Acceptance(s.calls[i].p, reply.response.receipt)]
            && t.clients[i] == s.clients[i].(next := Some(reply.response.next), pending := None, uncertain := false)
            && t.calls[i] == Idle)
      && (waits && !Acceptable(s.clients[i], s.calls[i].p, reply.response) ==>
            && t.accepted == s.accepted && t.calls[i] == Idle && t.clients[i].pending == s.clients[i].pending
            && (!reply.response.Refusal? || reply.response.code == "REQUIRES_RESYNC" ==> t.clients[i].uncertain))
      && (!waits ==> t.accepted == s.accepted)
  {
    hide Keeps;
    Sized(s);
  }

  /** A query teaches a client its next sequence exactly when it speaks of this epoch and the sequence does not fall; one for
      the capabilities also lets it prepare. */
  lemma AskedExact(s: System, i: nat, reply: Reply)
    requires Keeps(s) && i < |s.clients| && i < |s.calls| && s.calls[i].Asking? && reply in s.replies && reply.conn == s.calls[i].conn
    ensures |s.clients| == |s.calls| && |s.ring.entries| == Retry.WINDOW
    ensures
      var (c, t, r) := (s.clients[i], Next(s, Receive(i, reply)), reply.response);
      && |t.clients| == |s.clients| && t.calls == s.calls[i := Idle]
      && (r.Status? && r.epoch == c.epoch && r.next >= 1 && (c.next.Some? ==> r.next >= c.next.value) ==>
            t.clients[i] == c.(next := Some(r.next), negotiated := c.negotiated || s.calls[i].capabilities))
      && (r == Refusal("REQUIRES_RESYNC") ==> t.clients[i] == c.(uncertain := true))
      && (!Informs(c, r) && r != Refusal("REQUIRES_RESYNC") ==> t.clients[i] == c)
  {
    hide Keeps;
    Sized(s);
  }

  /** A reconciliation asks twice; what was pending is abandoned exactly when both answers inform the client. */
  lemma ResyncedExact(s: System, i: nat, reply: Reply)
    requires Keeps(s) && i < |s.clients| && i < |s.calls| && s.calls[i].Resyncing? && reply in s.replies && reply.conn == s.calls[i].conn
    ensures |s.clients| == |s.calls| && |s.ring.entries| == Retry.WINDOW
    ensures
      var (c, t, r) := (s.clients[i], Next(s, Receive(i, reply)), reply.response);
      && |t.clients| == |s.clients| && |t.calls| == |s.calls|
      && (Informs(c, r) && s.calls[i].second ==>
            && t.clients[i] == c.(next := Some(r.next), uncertain := false, pending := None, resyncs := c.resyncs + 1) && t.calls[i] == Idle)
      && (Informs(c, r) && !s.calls[i].second ==>
            && t.clients[i] == c.(next := Some(r.next), negotiated := true) && t.calls[i] == Resyncing(s.conns, true)
            && t.requests == s.requests + {Query(s.conns, c.epoch)} && t.conns == s.conns + 1)
      && (!Informs(c, r) ==> t.clients[i].pending == c.pending && t.clients[i].resyncs == c.resyncs && t.calls[i] == Idle)
  {
    hide Keeps;
    Sized(s);
  }

  // A whole exchange

  /** The callback gives a receipt that may be kept and that names this transaction and this world. */
  predicate Answering(callback: Retry.Callback, transactionId: Text, worldId: Text) {
    && callback.Returns? && Retry.Retainable(callback.receipt) && callback.receipt.transactionId == transactionId
    && forall i :: 0 <= i < |callback.receipt.created| ==> callback.receipt.created[i].worldId == worldId
  }

  /** The client and the server agree on the next sequence. */
  predicate InStep(s: System, i: nat) {
    Ready(s, i) && s.clients[i].epoch == s.epoch && !s.ring.exhausted && s.clients[i].next.value == s.ring.next
  }

  function RequestOf(conn: nat, p: Prepared): Request {
    Transact(conn, p.epoch, p.sequence, p.payload)
  }

  /** Prepared and sent. */
  lemma Sent(s: System, i: nat, payload: Bytes, transactionId: Text) returns (p: Prepared, t: System)
    requires Keeps(s) && InStep(s, i) && 0 < |payload| <= Retry.PAYLOAD_LIMIT
    ensures Keeps(t) && |s.clients| == |s.calls| && |s.ring.entries| == Retry.WINDOW
    ensures
      var u := Next(s, Prepare(i, payload, transactionId));
      |u.clients| == |u.calls| && |u.ring.entries| == Retry.WINDOW && t == Next(u, Submit(i, |s.prepared|))
    ensures p == Prepared(|s.prepared|, i, s.epoch, s.ring.next, payload, transactionId, s.clients[i].resyncs)
    ensures t == s.(prepared := s.prepared + [p], clients := s.clients[i := s.clients[i].(pending := Some(p))],
                    requests := s.requests + {RequestOf(s.conns, p)}, conns := s.conns + 1, calls := s.calls[i := Submitting(s.conns, p)])
  {
    hide Keeps, Next;
    Sized(s);
    PrepareExact(s, i, payload, transactionId);
    var c := s.clients[i];
    p := Prepared(|s.prepared|, i, c.epoch, c.next.value, payload, transactionId, c.resyncs);
    var u := Next(s, Prepare(i, payload, transactionId));
    NextKeeps(s, Prepare(i, payload, transactionId));
    Sized(u);
    SubmitExact(u, i, |s.prepared|);
    t := Next(u, Submit(i, |s.prepared|));
    NextKeeps(u, Submit(i, |s.prepared|));
    assert u.prepared[|s.prepared|] == p;
    SubmitFrame(u, i, |s.prepared|);
    assert s.clients[i := c.(pending := Some(p))][i := c.(pending := Some(p))] == s.clients[i := c.(pending := Some(p))];
  }

  lemma SubmitFrame(s: System, i: nat, serial: nat)
    requires Keeps(s)
    ensures |s.clients| == |s.calls| && |s.ring.entries| == Retry.WINDOW
    ensures
      var t := Next(s, Submit(i, serial));
      t == s.(requests := t.requests, conns := t.conns, calls := t.calls, clients := t.clients)
  {
    hide Keeps;
    Sized(s);
  }

  /** Running a new request on the server consumes its sequence and sends its receipt. */
  lemma Delivered(s: System, request: Request, callback: Retry.Callback)
    requires Keeps(s) && request in s.requests && request.Transact? && request.epoch == s.epoch && !s.ring.exhausted
    requires request.sequence == s.ring.next && 0 < |request.payload| <= Retry.PAYLOAD_LIMIT
    requires callback.Returns? && Retry.Retainable(callback.receipt) && s.ring.next < U64_MAX
    ensures |s.clients| == |s.calls| && |s.ring.entries| == Retry.WINDOW
    ensures
      var t := Next(s, Deliver(request, callback, None));
      var x := Retry.Execute(s.ring, s.now, request.sequence, request.payload, callback);
      && x.ran && x.answer == Retry.Answer(Some(callback.receipt), "", false) && x.ring.next == s.ring.next + 1 && !x.ring.exhausted
      && t == s.(ring := x.ring,
                 replies := s.replies + {Reply(request.conn, Accepted(s.epoch, s.ring.next + 1, callback.receipt))},
                 runs := s.runs + [RunRecord(s.epoch, request.sequence, request.payload, Some(callback.receipt))])
  {
    hide Keeps;
    Sized(s);
  }

  /** A request of a client that is in step gets through: it runs, once, its receipt is accepted, and the client is in step
      again for the next one. */
  lemma GetsThrough(s: System, i: nat, payload: Bytes, transactionId: Text, callback: Retry.Callback) returns (p: Prepared, t: System)
    requires Keeps(s) && InStep(s, i) && 0 < |payload| <= Retry.PAYLOAD_LIMIT
    requires Answering(callback, transactionId, s.clients[i].worldId)
    ensures Keeps(t)
    ensures t.accepted == s.accepted + [Acceptance(p, callback.receipt)]
    ensures t.runs == s.runs + [RunRecord(s.epoch, s.ring.next, payload, Some(callback.receipt))]
    ensures p.owner == i && p.payload == payload && p.transactionId == transactionId && p.sequence == s.ring.next
    ensures s.ring.next + 1 < U64_MAX ==> InStep(t, i)
  {
    hide Keeps, Next;
    var sent;
    p, sent := Sent(s, i, payload, transactionId);
    var request := RequestOf(s.conns, p);
    Delivered(sent, request, callback);
    var served := Next(sent, Deliver(request, callback, None));
    NextKeeps(sent, Deliver(request, callback, None));
    var reply := Reply(s.conns, Accepted(s.epoch, s.ring.next + 1, callback.receipt));
    ReceiveExact(served, i, reply);
    t := Next(served, Receive(i, reply));
    NextKeeps(served, Receive(i, reply));
    ReceiveFrame(served, i, reply);
  }

  lemma ReceiveFrame(s: System, i: nat, reply: Reply)
    requires Keeps(s) && i < |s.clients|
    ensures |s.clients| == |s.calls| && |s.ring.entries| == Retry.WINDOW
    ensures
      var t := Next(s, Receive(i, reply));
      && |t.clients| == |t.calls| == |s.clients| && t.ring == s.ring && t.runs == s.runs && t.epoch == s.epoch && t.now == s.now
      && t.prepared == s.prepared
  {
    hide Keeps;
    Sized(s);
  }

  /** When the answer is lost the outcome is open, the request stays pending, and nothing else can be prepared. */
  lemma LostAnswer(s: System, i: nat)
    requires Keeps(s) && i < |s.clients| && i < |s.calls| && s.calls[i].Submitting?
    ensures |s.clients| == |s.calls| && |s.ring.entries| == Retry.WINDOW
    ensures
      var t := Next(s, GiveUp(i));
      && t == s.(clients := t.clients, calls := s.calls[i := Idle]) && |t.clients| == |s.clients|
      && t.clients[i] == s.clients[i].(uncertain := true) && !Ready(t, i)
  {
    hide Keeps;
    Sized(s);
  }

  /** Sending the same request again after its answer was lost gets the original receipt, and runs nothing: whatever the
      callback would do now, as long as the receipt has not expired. */
  lemma SentAgain(s: System, i: nat, payload: Bytes, transactionId: Text, callback: Retry.Callback, other: Retry.Callback)
    returns (p: Prepared, t: System)
    requires Keeps(s) && InStep(s, i) && 0 < |payload| <= Retry.PAYLOAD_LIMIT
    requires Answering(callback, transactionId, s.clients[i].worldId)
    ensures Keeps(t) && t.accepted == s.accepted + [Acceptance(p, callback.receipt)]
    ensures t.runs == s.runs + [RunRecord(s.epoch, s.ring.next, payload, Some(callback.receipt))]
    ensures s.ring.next + 1 < U64_MAX ==> InStep(t, i)
  {
    hide Keeps, Next;
    var sent;
    p, sent := Sent(s, i, payload, transactionId);
    var request := RequestOf(s.conns, p);
    Delivered(sent, request, callback);
    var served := Next(sent, Deliver(request, callback, None));
    NextKeeps(sent, Deliver(request, callback, None));
    LostAnswer(served, i);
    var lost := Next(served, GiveUp(i));
    NextKeeps(served, GiveUp(i));
    SubmitExact(lost, i, p.serial);
    SubmitFrame(lost, i, p.serial);
    var resent := Next(lost, Submit(i, p.serial));
    NextKeeps(lost, Submit(i, p.serial));
    Repeated(s, p, callback, other);
    var again := RequestOf(lost.conns, p);
    DeliveredAgain(resent, again, callback.receipt, other);
    var replied := Next(resent, Deliver(again, other, None));
    NextKeeps(resent, Deliver(again, other, None));
    var reply := Reply(lost.conns, Accepted(s.epoch, s.ring.next + 1, callback.receipt));
    ReceiveExact(replied, i, reply);
    t := Next(replied, Receive(i, reply));
    NextKeeps(replied, Receive(i, reply));
    ReceiveFrame(replied, i, reply);
  }

  /** The window answers the second arrival of a request from the first. */
  lemma Repeated(s: System, p: Prepared, callback: Retry.Callback, other: Retry.Callback)
    requires Keeps(s) && p.sequence == s.ring.next < U64_MAX && !s.ring.exhausted && 0 < |p.payload| <= Retry.PAYLOAD_LIMIT
    requires callback.Returns? && Retry.Retainable(callback.receipt)
    ensures |s.ring.entries| == Retry.WINDOW
    ensures
      var x := Retry.Execute(s.ring, s.now, p.sequence, p.payload, callback);
      && |x.ring.entries| == Retry.WINDOW
      && var y := Retry.Execute(x.ring, s.now, p.sequence, p.payload, other);
         y.answer == Retry.Answer(Some(callback.receipt), "", true) && !y.ran && y.ring.next == x.ring.next && y.ring.exhausted == x.ring.exhausted
  {
    Sized(s);
    var first := Retry.Request(s.now, p.sequence, p.payload, callback);
    var x := Retry.Execute(s.ring, s.now, p.sequence, p.payload, callback);
    Retry.ExecuteKeeps(s.ring, s.now, p.sequence, p.payload, callback);
    assert Retry.After(x.ring, [], 0) == x.ring;
    Retry.ReceiptReplayed(s.ring, first, [], Retry.Request(s.now, p.sequence, p.payload, other));
  }

  lemma DeliveredAgain(s: System, request: Request, receipt: Receipt, callback: Retry.Callback)
    requires Keeps(s) && request in s.requests && request.Transact? && request.epoch == s.epoch && |s.ring.entries| == Retry.WINDOW
    requires
      var y := Retry.Execute(s.ring, s.now, request.sequence, request.payload, callback);
      y.answer == Retry.Answer(Some(receipt), "", true) && !y.ran && y.ring.next == s.ring.next && y.ring.exhausted == s.ring.exhausted
    ensures |s.clients| == |s.calls|
    ensures
      var t := Next(s, Deliver(request, callback, None));
      && t == s.(ring := t.ring, replies := s.replies + {Reply(request.conn, Accepted(s.epoch, s.ring.next, receipt))})
      && t.ring.next == s.ring.next && t.ring.exhausted == s.ring.exhausted
  {
    hide Keeps, Retry.Execute;
    Sized(s);
  }
}
