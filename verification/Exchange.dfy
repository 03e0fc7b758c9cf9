/** Clients that may only resend what they prepared, a network that loses, delays and repeats messages,
    and a server that renews its epoch: every prepared transaction runs at most once. */
module Exchange {
  import opened Prelude
  import opened Texts
  import opened Commands
  import opened Retry

  /** One prepared request; its identity is its serial number. `after` counts the client's earlier reconciliations. */
  datatype Prepared = Prepared(serial: nat, owner: nat, epoch: nat, sequence: u64, payload: Bytes, transactionId: Text, after: nat)

  datatype Client = Client(worldId: Text, epoch: nat, next: Option<u64>, negotiated: bool, uncertain: bool,
                           pending: Option<Prepared>, resyncs: nat)

  /** What comes back from one connection. */
  datatype Response =
    | Lost
    | Refusal(code: string)
    | Status(epoch: nat, next: u64)
    | Accepted(epoch: nat, next: u64, receipt: Receipt)

  // The client

  /** Why a new request may not be prepared. */
  predicate MayPrepare(c: Client) {
    !c.uncertain && c.pending.None?
  }

  predicate Exhausted(c: Client) {
    c.next.None? || c.next.value >= U64_MAX
  }

  predicate NextAdvances(c: Client, epoch: nat, next: u64) {
    epoch == c.epoch && next >= 1 && (c.next.Some? ==> next >= c.next.value)
  }

  /** The end of a query. */
  function Learned(c: Client, response: Response, capabilities: bool): Client {
    match response
    case Status(epoch, next) =>
      if NextAdvances(c, epoch, next) then c.(next := Some(next), negotiated := c.negotiated || capabilities) else c
    case Refusal(code) => if code == "REQUIRES_RESYNC" then c.(uncertain := true) else c
    case _ => c
  }

  predicate Informs(c: Client, response: Response) {
    response.Status? && NextAdvances(c, response.epoch, response.next)
  }

  /** The reply belongs to this very request. */
  predicate Acceptable(c: Client, p: Prepared, response: Response) {
    && response.Accepted? && NextAdvances(c, response.epoch, response.next)
    && response.next >= p.sequence + 1
    && response.receipt.transactionId == p.transactionId
    && forall i :: 0 <= i < |response.receipt.created| ==> response.receipt.created[i].worldId == c.worldId
  }

  /** The end of a submission. */
  function Submitted(c: Client, p: Prepared, response: Response): Client {
    if Acceptable(c, p, response) then c.(next := Some(response.next), pending := None, uncertain := false)
    else if response.Refusal? then (if response.code == "REQUIRES_RESYNC" then c.(uncertain := true) else c)
    else c.(uncertain := true)
  }

  /** A completed reconciliation abandons what was pending. */
  function Reconciled(c: Client): Client {
    c.(uncertain := false, pending := None, resyncs := c.resyncs + 1)
  }

  // The system

  datatype RunRecord = RunRecord(epoch: nat, sequence: u64, payload: Bytes, receipt: Option<Receipt>)

  datatype Request =
    | Transact(conn: nat, epoch: nat, sequence: u64, payload: Bytes)
    | Query(conn: nat, epoch: nat)

  datatype Reply = Reply(conn: nat, response: Response)

  /** What a client is blocked in; it holds its lock meanwhile. */
  datatype Call =
    | Idle
    | Submitting(conn: nat, p: Prepared)
    | Asking(conn: nat, capabilities: bool)
    | Resyncing(conn: nat, second: bool)

  datatype Acceptance = Acceptance(p: Prepared, receipt: Receipt)

  /** Requests and replies stay on the network: delivering one again is a duplicate, never delivering it a loss. */
  datatype System = System(epoch: nat, ring: Ring, now: nat, conns: nat,
                           runs: seq<RunRecord>, requests: set<Request>, replies: set<Reply>,
                           clients: seq<Client>, calls: seq<Call>,
                           prepared: seq<Prepared>, accepted: seq<Acceptance>)

  datatype Event =
    | Join(worldId: Text)
    | Prepare(client: nat, payload: Bytes, transactionId: Text)
    | Submit(client: nat, serial: nat)
    | Ask(client: nat, capabilities: bool)
    | Resync(client: nat)
    | Deliver(request: Request, callback: Callback, refused: Option<string>)
    | Receive(client: nat, reply: Reply)
    | GiveUp(client: nat)
    | Renew
    | Wait(ms: nat)

  const START := System(0, RESET, 0, 0, [], {}, {}, [], [], [], [])

  /** The server's answer to a request that reaches it; stale sessions and other refusals run nothing. */
  function Served(s: System, request: Request, callback: Callback, refused: Option<string>): System
    requires |s.ring.entries| == WINDOW
  {
    if refused.Some? then s.(replies := s.replies + {Reply(request.conn, Refusal(refused.value))})
    else if request.epoch != s.epoch then s.(replies := s.replies + {Reply(request.conn, Refusal("SESSION_EXPIRED"))})
    else
      match request
      case Query(conn, _) => s.(replies := s.replies + {Reply(conn, Status(s.epoch, s.ring.next))})
      case Transact(conn, _, sequence, payload) =>
        var x := Execute(s.ring, s.now, sequence, payload, callback);
        var response := if x.answer.receipt.Some? then Accepted(s.epoch, x.ring.next, x.answer.receipt.value) else Refusal(x.answer.code);
        s.(ring := x.ring, replies := s.replies + {Reply(conn, response)},
           runs := if x.ran then s.runs + [RunRecord(s.epoch, sequence, payload, Produced(callback))] else s.runs)
  }

  /** A blocked call that ends with `response`. */
  function Ended(s: System, i: nat, response: Response): System
    requires i < |s.clients| == |s.calls|
  {
    var c := s.clients[i];
    match s.calls[i]
    case Idle => s
    case Submitting(_, p) =>
      s.(clients := s.clients[i := Submitted(c, p, response)], calls := s.calls[i := Idle],
         accepted := if Acceptable(c, p, response) then s.accepted + [Acceptance(p, response.receipt)] else s.accepted)
    case Asking(_, capabilities) =>
      s.(clients := s.clients[i := Learned(c, response, capabilities)], calls := s.calls[i := Idle])
    case Resyncing(_, second) =>
      var learned := Learned(c, response, !second);
      if !Informs(c, response) then s.(clients := s.clients[i := learned], calls := s.calls[i := Idle])
      else if second then s.(clients := s.clients[i := Reconciled(learned)], calls := s.calls[i := Idle])
      else s.(clients := s.clients[i := learned], calls := s.calls[i := Resyncing(s.conns, true)],
              requests := s.requests + {Query(s.conns, c.epoch)}, conns := s.conns + 1)
  }

  function Next(s: System, event: Event): System
    requires |s.clients| == |s.calls| && |s.ring.entries| == WINDOW
  {
    match event
    case Join(worldId) =>
      s.(clients := s.clients + [Client(worldId, s.epoch, None, false, false, None, 0)], calls := s.calls + [Idle])
    case Prepare(i, payload, transactionId) =>
      if i >= |s.clients| || !s.calls[i].Idle? || !MayPrepare(s.clients[i]) || !s.clients[i].negotiated then s
      else if Exhausted(s.clients[i]) then s.(clients := s.clients[i := s.clients[i].(uncertain := true)])
      else if |payload| > PAYLOAD_LIMIT then s
      else
        var c := s.clients[i];
        var p := Prepared(|s.prepared|, i, c.epoch, c.next.value, payload, transactionId, c.resyncs);
        s.(clients := s.clients[i := c.(pending := Some(p))], prepared := s.prepared + [p])
    case Submit(i, serial) =>
      if i >= |s.clients| || !s.calls[i].Idle? || serial >= |s.prepared| then s
      else
        var c, p := s.clients[i], s.prepared[serial];
        if p.owner != i || (c.pending.Some? && c.pending != Some(p)) then s
        else s.(clients := s.clients[i := c.(pending := Some(p))], calls := s.calls[i := Submitting(s.conns, p)],
                requests := s.requests + {Transact(s.conns, p.epoch, p.sequence, p.payload)}, conns := s.conns + 1)
    case Ask(i, capabilities) =>
      if i >= |s.clients| || !s.calls[i].Idle? then s
      else s.(calls := s.calls[i := Asking(s.conns, capabilities)], requests := s.requests + {Query(s.conns, s.clients[i].epoch)},
              conns := s.conns + 1)
    case Resync(i) =>
      if i >= |s.clients| || !s.calls[i].Idle? then s
      else s.(calls := s.calls[i := Resyncing(s.conns, false)], requests := s.requests + {Query(s.conns, s.clients[i].epoch)},
              conns := s.conns + 1)
    case Deliver(request, callback, refused) =>
      if request !in s.requests then s else Served(s, request, callback, refused)
    case Receive(i, reply) =>
      if i >= |s.clients| || s.calls[i].Idle? || reply !in s.replies || reply.conn != s.calls[i].conn then s
      else Ended(s, i, reply.response)
    case GiveUp(i) =>
      if i >= |s.clients| then s else Ended(s, i, Lost)
    case Renew => s.(epoch := s.epoch + 1, ring := RESET)
    case Wait(ms) => s.(now := s.now + ms)
  }

  // What every run keeps

  predicate Ran(s: System, epoch: nat, sequence: u64, payload: Bytes, receipt: Receipt) {
    RunRecord(epoch, sequence, payload, Some(receipt)) in s.runs
  }

  /** The keys of the runs are distinct, and those of the current epoch are the consumed sequences. */
  predicate RunsDistinct(s: System) {
    && RingValid(s.ring)
    && (forall k :: 0 <= k < |s.runs| ==> s.runs[k].epoch <= s.epoch)
    && (forall k :: 0 <= k < |s.runs| && s.runs[k].epoch == s.epoch ==> 1 <= s.runs[k].sequence <= Consumed(s.ring))
    && forall j, k :: 0 <= j < k < |s.runs| ==> s.runs[j].epoch != s.runs[k].epoch || s.runs[j].sequence != s.runs[k].sequence
  }

  /** The window remembers only what ran in this epoch. */
  predicate WindowRemembers(s: System)
    requires |s.ring.entries| == WINDOW
  {
    forall i :: 0 <= i < WINDOW && s.ring.entries[i].sequence != 0 ==>
      RunRecord(s.epoch, s.ring.entries[i].sequence, s.ring.entries[i].payload, s.ring.entries[i].receipt) in s.runs
  }

  /** A receipt on the network was produced by the run of the request it answers. */
  predicate ReplyTrue(s: System, reply: Reply) {
    reply.response.Accepted? ==>
      exists request :: request in s.requests && request.Transact? && request.conn == reply.conn
        && request.epoch == reply.response.epoch
        && Ran(s, request.epoch, request.sequence, request.payload, reply.response.receipt)
  }

  predicate RepliesTrue(s: System) {
    forall reply :: reply in s.replies ==> ReplyTrue(s, reply)
  }

  /** Every request on the network is one that was prepared, unchanged; connections are used once. */
  predicate RequestsPrepared(s: System) {
    && (forall q :: q in s.requests ==> q.conn < s.conns)
    && (forall q, r :: q in s.requests && r in s.requests && q.conn == r.conn ==> q == r)
    && forall q :: q in s.requests && q.Transact? ==>
         exists k :: 0 <= k < |s.prepared| && q == Transact(q.conn, s.prepared[k].epoch, s.prepared[k].sequence, s.prepared[k].payload)
  }

  predicate CallsOwn(s: System) {
    && |s.calls| == |s.clients|
    && forall i :: 0 <= i < |s.calls| && s.calls[i].Submitting? ==>
         && s.calls[i].p in s.prepared && s.calls[i].p.owner == i && s.clients[i].pending == Some(s.calls[i].p)
         && Transact(s.calls[i].conn, s.calls[i].p.epoch, s.calls[i].p.sequence, s.calls[i].p.payload) in s.requests
  }

  predicate AcceptedRan(s: System) {
    forall k :: 0 <= k < |s.accepted| ==>
      && s.accepted[k].p in s.prepared
      && Ran(s, s.accepted[k].p.epoch, s.accepted[k].p.sequence, s.accepted[k].p.payload, s.accepted[k].receipt)
  }

  /** Between reconciliations a client never uses a sequence for two requests. */
  predicate KeysFresh(s: System) {
    && (forall k :: 0 <= k < |s.prepared| ==>
          && s.prepared[k].serial == k && s.prepared[k].owner < |s.clients|
          && s.prepared[k].after <= s.clients[s.prepared[k].owner].resyncs
          && s.prepared[k].epoch == s.clients[s.prepared[k].owner].epoch)
    && (forall k :: 0 <= k < |s.prepared| ==> Behind(s, s.prepared[k]))
    && forall j, k :: 0 <= j < k < |s.prepared| && SameRound(s.prepared[j], s.prepared[k]) ==>
         s.prepared[j].sequence < s.prepared[k].sequence
  }

  predicate SameRound(p: Prepared, q: Prepared) {
    p.owner == q.owner && p.after == q.after
  }

  /** A prepared request of the current round is pending, or its client has moved past it. */
  predicate Behind(s: System, p: Prepared)
    requires p.owner < |s.clients|
  {
    var c := s.clients[p.owner];
    p.after == c.resyncs ==> c.next.Some? && (c.pending == Some(p) || p.sequence < c.next.value)
  }

  predicate Keeps(s: System) {
    && RunsDistinct(s) && WindowRemembers(s) && RepliesTrue(s) && RequestsPrepared(s) && CallsOwn(s) && AcceptedRan(s) && KeysFresh(s)
  }

  // Serving a request

  lemma ServedKeeps(s: System, request: Request, callback: Callback, refused: Option<string>)
    requires Keeps(s) && request in s.requests
    ensures Keeps(Served(s, request, callback, refused))
  {
    hide Execute, RequestsPrepared, CallsOwn, KeysFresh, RunsDistinct, WindowRemembers, AcceptedRan, RepliesTrue, RingValid;
    RingSize(s);
    var t := Served(s, request, callback, refused);
    ServedRuns(s, request, callback, refused);
    ServedReplies(s, request, callback, refused);
    SameRequests(s, t);
    MoreRuns(s, t);
  }

  lemma RingSize(s: System)
    requires RunsDistinct(s)
    ensures |s.ring.entries| == WINDOW
  {
  }

  lemma SameRequests(s: System, t: System)
    requires t.requests == s.requests && t.prepared == s.prepared && t.calls == s.calls && t.clients == s.clients && t.conns == s.conns
    ensures RequestsPrepared(s) ==> RequestsPrepared(t)
    ensures CallsOwn(s) ==> CallsOwn(t)
    ensures KeysFresh(s) ==> KeysFresh(t)
  {
  }

  lemma MoreRuns(s: System, t: System)
    requires AcceptedRan(s) && s.runs <= t.runs && t.accepted == s.accepted && s.prepared <= t.prepared
    ensures AcceptedRan(t)
  {
    forall k | 0 <= k < |t.accepted|
      ensures t.accepted[k].p in t.prepared
      ensures Ran(t, t.accepted[k].p.epoch, t.accepted[k].p.sequence, t.accepted[k].p.payload, t.accepted[k].receipt)
    {
      assert s.accepted[k].p in s.prepared;
      assert Ran(s, s.accepted[k].p.epoch, s.accepted[k].p.sequence, s.accepted[k].p.payload, s.accepted[k].receipt);
    }
  }

  /** Serving keeps the runs distinct and the window true; a receipt it sends belongs to a run of this request. */
  lemma ServedRuns(s: System, request: Request, callback: Callback, refused: Option<string>)
    requires RunsDistinct(s) && WindowRemembers(s)
    ensures
      var t := Served(s, request, callback, refused);
      && RunsDistinct(t) && WindowRemembers(t) && s.runs <= t.runs
      && (request.Transact? && refused.None? && request.epoch == s.epoch ==>
            var x := Execute(s.ring, s.now, request.sequence, request.payload, callback);
            x.answer.receipt.Some? ==> Ran(t, s.epoch, request.sequence, request.payload, x.answer.receipt.value))
  {
    hide Execute, Cleared, Find;
    if request.Transact? && refused.None? && request.epoch == s.epoch {
      ExecuteKeeps(s.ring, s.now, request.sequence, request.payload, callback);
      AnswerIsOwn(s.ring, s.now, request.sequence, request.payload, callback);
      var t := Served(s, request, callback, refused);
      var x := Execute(s.ring, s.now, request.sequence, request.payload, callback);
      if x.ran {
        assert t.runs[|s.runs|] == RunRecord(s.epoch, request.sequence, request.payload, Produced(callback));
      }
      forall i | 0 <= i < WINDOW && t.ring.entries[i].sequence != 0
        ensures RunRecord(s.epoch, t.ring.entries[i].sequence, t.ring.entries[i].payload, t.ring.entries[i].receipt) in t.runs
      {
      }
    }
  }

  lemma ServedReplies(s: System, request: Request, callback: Callback, refused: Option<string>)
    requires RunsDistinct(s) && WindowRemembers(s) && RepliesTrue(s) && request in s.requests
    ensures RepliesTrue(Served(s, request, callback, refused))
  {
    hide Execute, RunsDistinct, WindowRemembers, RingValid;
    RingSize(s);
    ServedRuns(s, request, callback, refused);
    var t := Served(s, request, callback, refused);
    forall reply | reply in t.replies
      ensures ReplyTrue(t, reply)
    {
      if reply in s.replies {
        assert ReplyTrue(s, reply);
      }
    }
  }

  // Ending a call

  lemma EndedKeeps(s: System, i: nat, reply: Reply)
    requires Keeps(s) && i < |s.clients|
    requires reply.response == Lost || (reply in s.replies && !s.calls[i].Idle? && reply.conn == s.calls[i].conn)
    ensures Keeps(Ended(s, i, reply.response))
  {
    hide RunsDistinct, WindowRemembers, RepliesTrue, RequestsPrepared, AcceptedRan, KeysFresh, CallsOwn, Acceptable, NextAdvances;
    CallsSize(s);
    var t := Ended(s, i, reply.response);
    EndedFresh(s, i, reply.response);
    EndedCalls(s, i, reply.response);
    EndedRequests(s, i, reply.response);
    EndedAccepted(s, i, reply);
  }

  lemma CallsSize(s: System)
    requires CallsOwn(s)
    ensures |s.calls| == |s.clients|
  {
  }

  lemma EndedCalls(s: System, i: nat, response: Response)
    requires CallsOwn(s) && i < |s.clients|
    ensures CallsOwn(Ended(s, i, response))
  {
    hide Acceptable, NextAdvances;
  }

  /** Ending a call sends at most one more query, on a new connection. */
  lemma EndedRequests(s: System, i: nat, response: Response)
    requires RequestsPrepared(s) && CallsOwn(s) && i < |s.clients| && RepliesTrue(s) && RunsDistinct(s) && WindowRemembers(s)
    ensures
      var t := Ended(s, i, response);
      RequestsPrepared(t) && RepliesTrue(t) && RunsDistinct(t) && WindowRemembers(t)
  {
    hide Acceptable, NextAdvances, RingValid, CallsOwn;
    CallsSize(s);
    var t := Ended(s, i, response);
    forall reply | reply in t.replies
      ensures ReplyTrue(t, reply)
    {
      assert ReplyTrue(s, reply);
    }
  }

  /** A receipt the client accepts was produced by the one run of exactly what it prepared. */
  lemma EndedAccepted(s: System, i: nat, reply: Reply)
    requires Keeps(s) && i < |s.clients|
    requires reply.response == Lost || (reply in s.replies && !s.calls[i].Idle? && reply.conn == s.calls[i].conn)
    ensures AcceptedRan(Ended(s, i, reply.response))
  {
    hide RunsDistinct, WindowRemembers, KeysFresh;
    var t := Ended(s, i, reply.response);
    if s.calls[i].Submitting? && Acceptable(s.clients[i], s.calls[i].p, reply.response) {
      assert ReplyTrue(s, reply);
      var request :| request in s.requests && request.Transact? && request.conn == reply.conn
        && request.epoch == reply.response.epoch
        && Ran(s, request.epoch, request.sequence, request.payload, reply.response.receipt);
      var p := s.calls[i].p;
      assert request == Transact(reply.conn, p.epoch, p.sequence, p.payload);
    }
  }

  /** A client moves on: its next sequence never falls, and what stops being pending is behind it or abandoned. */
  predicate MovesOn(c: Client, d: Client) {
    && d.epoch == c.epoch && d.resyncs >= c.resyncs
    && (d.resyncs == c.resyncs ==>
          && (c.next.Some? ==> d.next.Some? && d.next.value >= c.next.value)
          && (d.pending != c.pending ==> c.pending.Some? && d.next.Some? && c.pending.value.sequence < d.next.value))
  }

  lemma EndedClient(s: System, i: nat, response: Response)
    requires CallsOwn(s) && i < |s.clients|
    ensures
      var t := Ended(s, i, response);
      && t.prepared == s.prepared && |t.clients| == |s.clients| && MovesOn(s.clients[i], t.clients[i])
      && forall j :: 0 <= j < |s.clients| && j != i ==> t.clients[j] == s.clients[j]
  {
  }

  lemma EndedFresh(s: System, i: nat, response: Response)
    requires KeysFresh(s) && CallsOwn(s) && i < |s.clients|
    ensures KeysFresh(Ended(s, i, response))
  {
    hide Ended, CallsOwn;
    CallsSize(s);
    EndedClient(s, i, response);
    var t := Ended(s, i, response);
    forall k | 0 <= k < |s.prepared|
      ensures Behind(t, s.prepared[k])
    {
      assert Behind(s, s.prepared[k]);
    }
  }

  // The client's own steps

  lemma PrepareKeeps(s: System, i: nat, payload: Bytes, transactionId: Text)
    requires Keeps(s)
    ensures Keeps(Next(s, Prepare(i, payload, transactionId)))
  {
    hide RunsDistinct, WindowRemembers, RepliesTrue, AcceptedRan;
    RingSize(s);
    var t := Next(s, Prepare(i, payload, transactionId));
    PrepareFresh(s, i, payload, transactionId);
    MoreRuns(s, t);
    SameNetwork(s, t);
    forall q | q in t.requests && q.Transact?
      ensures exists k :: 0 <= k < |t.prepared| && q == Transact(q.conn, t.prepared[k].epoch, t.prepared[k].sequence, t.prepared[k].payload)
    {
      var k :| 0 <= k < |s.prepared| && q == Transact(q.conn, s.prepared[k].epoch, s.prepared[k].sequence, s.prepared[k].payload);
      assert t.prepared[k] == s.prepared[k];
    }
  }

  lemma PrepareFresh(s: System, i: nat, payload: Bytes, transactionId: Text)
    requires KeysFresh(s) && CallsOwn(s) && |s.ring.entries| == WINDOW
    ensures KeysFresh(Next(s, Prepare(i, payload, transactionId)))
  {
    var t := Next(s, Prepare(i, payload, transactionId));
    forall k | 0 <= k < |t.prepared|
      ensures Behind(t, t.prepared[k])
    {
      if k < |s.prepared| {
        assert Behind(s, s.prepared[k]);
      }
    }
    forall j, k | 0 <= j < k < |t.prepared| && SameRound(t.prepared[j], t.prepared[k])
      ensures t.prepared[j].sequence < t.prepared[k].sequence
    {
      if k == |s.prepared| {
        assert Behind(s, s.prepared[j]);
      }
    }
  }

  lemma SameNetwork(s: System, t: System)
    requires |s.ring.entries| == WINDOW
    requires t.runs == s.runs && t.ring == s.ring && t.epoch == s.epoch && s.requests <= t.requests && t.replies == s.replies
    ensures RunsDistinct(s) ==> RunsDistinct(t)
    ensures WindowRemembers(s) ==> WindowRemembers(t)
    ensures RepliesTrue(s) ==> RepliesTrue(t)
  {
    hide RingValid;
    if RepliesTrue(s) {
      forall reply | reply in t.replies
        ensures ReplyTrue(t, reply)
      {
        assert ReplyTrue(s, reply);
      }
    }
  }

  /** Sending puts exactly the prepared request on the network. */
  lemma SendKeeps(s: System, event: Event)
    requires Keeps(s) && (event.Submit? || event.Ask? || event.Resync?)
    ensures Keeps(Next(s, event))
  {
    hide RunsDistinct, WindowRemembers, RepliesTrue, AcceptedRan, KeysFresh;
    RingSize(s);
    var t := Next(s, event);
    SameNetwork(s, t);
    MoreRuns(s, t);
    SendFresh(s, event);
  }

  lemma SendFresh(s: System, event: Event)
    requires KeysFresh(s) && CallsOwn(s) && |s.ring.entries| == WINDOW && (event.Submit? || event.Ask? || event.Resync?)
    ensures KeysFresh(Next(s, event))
  {
    var t := Next(s, event);
    forall k | 0 <= k < |s.prepared|
      ensures Behind(t, s.prepared[k])
    {
      assert Behind(s, s.prepared[k]);
    }
  }

  lemma RestKeeps(s: System, event: Event)
    requires Keeps(s) && (event.Join? || event.Renew? || event.Wait?)
    ensures Keeps(Next(s, event))
  {
    hide RequestsPrepared;
    var t := Next(s, event);
    forall reply | reply in t.replies
      ensures ReplyTrue(t, reply)
    {
      assert ReplyTrue(s, reply);
    }
    forall k | 0 <= k < |s.prepared|
      ensures Behind(t, s.prepared[k])
    {
      assert Behind(s, s.prepared[k]);
    }
    RestRequests(s, t);
  }

  lemma RestRequests(s: System, t: System)
    requires RequestsPrepared(s) && t.requests == s.requests && t.prepared == s.prepared && t.conns == s.conns
    ensures RequestsPrepared(t)
  {
  }

  lemma NextKeeps(s: System, event: Event)
    requires Keeps(s)
    ensures |s.clients| == |s.calls| && |s.ring.entries| == WINDOW
    ensures Keeps(Next(s, event))
  {
    hide RunsDistinct, WindowRemembers, RepliesTrue, RequestsPrepared, AcceptedRan, KeysFresh, CallsOwn, Served, Ended;
    RingSize(s);
    CallsSize(s);
    match event
    case Prepare(i, payload, transactionId) => PrepareKeeps(s, i, payload, transactionId);
    case Submit(_, _) => SendKeeps(s, event);
    case Ask(_, _) => SendKeeps(s, event);
    case Resync(_) => SendKeeps(s, event);
    case Deliver(request, callback, refused) =>
      if request in s.requests {
        ServedKeeps(s, request, callback, refused);
      }
    case Receive(i, reply) =>
      if i < |s.clients| && !s.calls[i].Idle? && reply in s.replies && reply.conn == s.calls[i].conn {
        EndedKeeps(s, i, reply);
      }
    case GiveUp(i) =>
      if i < |s.clients| {
        EndedKeeps(s, i, Reply(0, Lost));
      }
    case Join(_) => RestKeeps(s, event);
    case Renew => RestKeeps(s, event);
    case Wait(_) => RestKeeps(s, event);
  }

  ghost predicate Run(states: seq<System>, events: seq<Event>) {
    && |states| == |events| + 1 && states[0] == START
    && forall k :: 0 <= k < |events| ==>
         && |states[k].clients| == |states[k].calls| && |states[k].ring.entries| == WINDOW
         && states[k + 1] == Next(states[k], events[k])
  }

  lemma {:induction false} RunKeeps(states: seq<System>, events: seq<Event>, n: nat)
    requires Run(states, events) && n <= |events|
    ensures Keeps(states[n])
  {
    hide Next, Keeps;
    if n > 0 {
      RunKeeps(states, events, n - 1);
      NextKeeps(states[n - 1], events[n - 1]);
    } else {
      StartKeeps();
    }
  }

  lemma StartKeeps()
    ensures Keeps(START)
  {
  }

  /** How many runs the key of a prepared request has had. */
  function RunsOf(runs: seq<RunRecord>, p: Prepared): nat {
    if runs == [] then 0
    else RunsOf(runs[1..], p) + if runs[0].epoch == p.epoch && runs[0].sequence == p.sequence then 1 else 0
  }

  lemma {:induction false} DistinctRuns(runs: seq<RunRecord>, p: Prepared)
    requires forall j, k :: 0 <= j < k < |runs| ==> runs[j].epoch != runs[k].epoch || runs[j].sequence != runs[k].sequence
    ensures RunsOf(runs, p) <= 1
    ensures RunsOf(runs, p) == 0 <==> forall k :: 0 <= k < |runs| ==> runs[k].epoch != p.epoch || runs[k].sequence != p.sequence
  {
    if runs != [] {
      var rest := runs[1..];
      assert forall k :: 0 <= k < |rest| ==> rest[k] == runs[k + 1];
      DistinctRuns(rest, p);
      assert forall k :: 0 < k < |runs| ==> runs[k] == rest[k - 1];
    }
  }

  /** Whatever is lost, repeated, delayed, expired or renewed: a prepared transaction runs at most once; one whose
      receipt was accepted ran exactly once, with exactly its payload, and that run produced the receipt; and
      the window holds each retained sequence at its place. */
  lemma ExactlyOnce(states: seq<System>, events: seq<Event>, n: nat)
    requires Run(states, events) && n <= |events|
    ensures
      var s := states[n];
      && (forall k :: 0 <= k < |s.prepared| ==> RunsOf(s.runs, s.prepared[k]) <= 1)
      && (forall k :: 0 <= k < |s.accepted| ==>
            var (p, receipt) := (s.accepted[k].p, s.accepted[k].receipt);
            && p in s.prepared && RunsOf(s.runs, p) == 1
            && RunRecord(p.epoch, p.sequence, p.payload, Some(receipt)) in s.runs)
      && RingValid(s.ring)
  {
    hide Next, RequestsPrepared, CallsOwn, KeysFresh, RepliesTrue, WindowRemembers, RingValid;
    RunKeeps(states, events, n);
    var s := states[n];
    forall p: Prepared
      ensures RunsOf(s.runs, p) <= 1
      ensures forall k :: 0 <= k < |s.runs| && s.runs[k].epoch == p.epoch && s.runs[k].sequence == p.sequence ==> RunsOf(s.runs, p) != 0
    {
      DistinctRuns(s.runs, p);
    }
  }

  /** Two accepted receipts for one key are equal: what a client was told never changes. */
  lemma SameReceipt(states: seq<System>, events: seq<Event>, n: nat, j: nat, k: nat)
    requires Run(states, events) && n <= |events| && j < |states[n].accepted| && k < |states[n].accepted|
    requires
      var (a, b) := (states[n].accepted[j].p, states[n].accepted[k].p);
      a.epoch == b.epoch && a.sequence == b.sequence
    ensures states[n].accepted[j].receipt == states[n].accepted[k].receipt
    ensures states[n].accepted[j].p.payload == states[n].accepted[k].p.payload
  {
    hide Next, RequestsPrepared, CallsOwn, KeysFresh, RepliesTrue, WindowRemembers, RingValid;
    RunKeeps(states, events, n);
    var s := states[n];
    var (a, b) := (s.accepted[j], s.accepted[k]);
    var x :| 0 <= x < |s.runs| && s.runs[x] == RunRecord(a.p.epoch, a.p.sequence, a.p.payload, Some(a.receipt));
    var y :| 0 <= y < |s.runs| && s.runs[y] == RunRecord(b.p.epoch, b.p.sequence, b.p.payload, Some(b.receipt));
    assert x == y;
  }

  /** A client replaces a request by another with the same sequence only after a reconciliation in between. */
  lemma NoSilentReplacement(states: seq<System>, events: seq<Event>, n: nat, j: nat, k: nat)
    requires Run(states, events) && n <= |events| && j < k < |states[n].prepared|
    requires states[n].prepared[j].owner == states[n].prepared[k].owner
    ensures states[n].prepared[j].sequence == states[n].prepared[k].sequence ==> states[n].prepared[j].after != states[n].prepared[k].after
  {
    hide RequestsPrepared, CallsOwn, RepliesTrue, WindowRemembers, RunsDistinct, AcceptedRan;
    RunKeeps(states, events, n);
  }

  // The client as an object

  const UNKNOWN_OUTCOME := "OutcomeUnknown"
  const PROTOCOL_ERROR := "ProtocolError"

  /** The error a failed query raises. */
  function QueryError(response: Response): string {
    if response.Refusal? then response.code else PROTOCOL_ERROR
  }

  class RetryPolicyClient {
    const owner: nat
    const worldId: Text
    const epoch: nat
    var next: Option<u64>
    var negotiated: bool
    var uncertain: bool
    var pending: Option<Prepared>
    var resyncs: nat

    ghost function Now(): Client
      reads this
    {
      Client(worldId, epoch, next, negotiated, uncertain, pending, resyncs)
    }

    constructor (owner: nat, worldId: Text, epoch: nat)
      ensures this.owner == owner && Now() == Client(worldId, epoch, None, false, false, None, 0)
    {
      this.owner, this.worldId, this.epoch := owner, worldId, epoch;
      next, negotiated, uncertain, pending, resyncs := None, false, false, None, 0;
    }

    /** A query; `response` is what the network returned. */
    method Learn(response: Response, capabilities: bool) returns (error: Option<string>)
      modifies this`next, this`negotiated, this`uncertain
      ensures Now() == Learned(old(Now()), response, capabilities)
      ensures error == if Informs(old(Now()), response) then None else Some(QueryError(response))
    {
      match response
      case Status(e, n) =>
        if e != epoch || n < 1 || (next.Some? && n < next.value) {
          return Some(PROTOCOL_ERROR);
        }
        next := Some(n);
        negotiated := negotiated || capabilities;
        return None;
      case Refusal(code) =>
        if code == "REQUIRES_RESYNC" {
          uncertain := true;
        }
        return Some(code);
      case _ => return Some(PROTOCOL_ERROR);
    }

    /** Snapshots one request under the next sequence; none while an earlier outcome is open. */
    method Prepare(negotiation: Response, wellFormed: bool, serial: nat, payload: Bytes, transactionId: Text)
      returns (r: Result<Prepared, string>)
      modifies this`next, this`negotiated, this`uncertain, this`pending
      ensures old(uncertain) || old(pending).Some? ==> r == Err(UNKNOWN_OUTCOME) && Now() == old(Now())
      ensures
        var c := if old(negotiated) then old(Now()) else Learned(old(Now()), negotiation, true);
        !old(uncertain) && old(pending).None? ==>
          if !c.negotiated then r.Err? && Now() == c
          else if !wellFormed then r == Err(PROTOCOL_ERROR) && Now() == c
          else if Exhausted(c) then r == Err(UNKNOWN_OUTCOME) && Now() == c.(uncertain := true)
          else if |payload| > PAYLOAD_LIMIT then r == Err(PROTOCOL_ERROR) && Now() == c
          else
            var p := Prepared(serial, owner, epoch, c.next.value, payload, transactionId, resyncs);
            r == Ok(p) && Now() == c.(pending := Some(p))
    {
      if uncertain || pending.Some? {
        return Err(UNKNOWN_OUTCOME);
      }
      if !negotiated {
        var error := Learn(negotiation, true);
        if error.Some? {
          return Err(error.value);
        }
      }
      if !wellFormed {
        return Err(PROTOCOL_ERROR);
      }
      if next.None? || next.value >= U64_MAX {
        uncertain := true;
        return Err(UNKNOWN_OUTCOME);
      }
      if |payload| > PAYLOAD_LIMIT {
        return Err(PROTOCOL_ERROR);
      }
      var p := Prepared(serial, owner, epoch, next.value, payload, transactionId, resyncs);
      pending := Some(p);
      r := Ok(p);
    }

    /** Sends or resends exactly this request; `response` is what the network returned. */
    method Submit(p: Prepared, response: Response) returns (r: Result<Receipt, string>)
      modifies this`next, this`uncertain, this`pending
      ensures p.owner != owner ==> r == Err(PROTOCOL_ERROR) && Now() == old(Now())
      ensures p.owner == owner && old(pending).Some? && old(pending) != Some(p) ==> r == Err(UNKNOWN_OUTCOME) && Now() == old(Now())
      ensures p.owner == owner && (old(pending).None? || old(pending) == Some(p)) ==>
        var c := old(Now()).(pending := Some(p));
        && Now() == Submitted(c, p, response)
        && r == if Acceptable(c, p, response) then Ok(response.receipt)
                else if response.Refusal? then Err(response.code) else Err(UNKNOWN_OUTCOME)
    {
      if p.owner != owner {
        return Err(PROTOCOL_ERROR);
      }
      if pending.Some? && pending.value != p {
        return Err(UNKNOWN_OUTCOME);
      }
      pending := Some(p);
      match response
      case Accepted(e, n, receipt) =>
        if (e != epoch || n < 1 || (next.Some? && n < next.value) || n < p.sequence + 1
            || receipt.transactionId != p.transactionId
            || exists i :: 0 <= i < |receipt.created| && receipt.created[i].worldId != worldId) {
          uncertain := true;
          return Err(UNKNOWN_OUTCOME);
        }
        next, pending, uncertain := Some(n), None, false;
        return Ok(receipt);
      case Refusal(code) =>
        if code == "REQUIRES_RESYNC" {
          uncertain := true;
        }
        return Err(code);
      case _ =>
        uncertain := true;
        return Err(UNKNOWN_OUTCOME);
    }

    /** Reads the capabilities, then the policy status; only when both succeed is the pending request abandoned. */
    method ResyncPolicy(first: Response, second: Response) returns (error: Option<string>)
      modifies this
      ensures
        var c := Learned(old(Now()), first, true);
        var d := Learned(c, second, false);
        if !Informs(old(Now()), first) then error == Some(QueryError(first)) && Now() == c
        else if !Informs(c, second) then error == Some(QueryError(second)) && Now() == d
        else error == None && Now() == Reconciled(d)
    {
      error := Learn(first, true);
      if error.Some? {
        return;
      }
      error := Learn(second, false);
      if error.Some? {
        return;
      }
      uncertain, pending, resyncs := false, None, resyncs + 1;
    }
  }
}
