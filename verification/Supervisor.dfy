/** The worker supervisor: calls, worker threads and submission threads interleaved at their critical sections. */
module Supervisor {
  import opened Prelude

  const REQUEST_LIMIT := 8
  const WORKER_LIMIT := 2

  datatype State =
    | Running | ProposalReady
    | Submitting | OutcomeUnknown | Reconciling
    | Committed | Rejected | Cancelled | Superseded | TimedOut | WorkerFailed | Crashed | Reconciled

  datatype ReceiptStatus = ReceiptCommitted | ReceiptRejected

  /** The thread of a request that talks to the host: where it is between its critical sections. */
  datatype Sender =
    | NoSender
    | Checking
    | Preparing
    | Prepared(made: nat)
    | Marking
    | Sending
    | Sent
    | Resyncing

  /** The thread of a worker: `Exited` is between finding the process gone and recording how it ended. */
  datatype Worker = Starting | Working | Exited | Ending | Reaped(cleaned: bool)

  /** `prepared` is the one object made for the request, named by a serial number; `made` remembers it for good. */
  datatype Request = Request(generation: nat, deadline: nat, state: State, late: nat, receipt: Option<ReceiptStatus>, code: string,
                             cleaned: bool, proposed: bool, prepared: Option<nat>, started: bool,
                             sender: Sender, worker: Worker, made: Option<nat>)

  /** One network submission: which request it was for, and which prepared object it sent. */
  datatype Submission = Submission(request: nat, prepared: nat)

  datatype System = System(now: nat, closed: bool, generation: nat, active: Option<nat>, blocked: Option<nat>, workers: nat,
                           records: seq<Request>, serial: nat, sent: seq<Submission>)

  predicate PreSubmit(x: State) {
    x.Running? || x.ProposalReady?
  }

  predicate Busy(x: State) {
    x.Submitting? || x.OutcomeUnknown? || x.Reconciling?
  }

  predicate Terminal(x: State) {
    !PreSubmit(x) && !Busy(x)
  }

  datatype Answer = Done | Refused(error: string)

  const PROTOCOL_ERROR := Refused("ProtocolError")
  const OUTCOME_UNKNOWN := Refused("OutcomeUnknown")

  function Put(s: System, k: nat, r: Request): System
    requires k < |s.records|
  {
    s.(records := s.records[k := r])
  }

  /** A request reaches a final state, and stops being the active one. */
  function Ended(s: System, k: nat, x: State, code: string): System
    requires k < |s.records|
  {
    Put(s, k, s.records[k].(state := x, code := code)).(active := if s.active == Some(k) then None else s.active)
  }

  function Expired(s: System, k: nat): System
    requires k < |s.records|
  {
    if PreSubmit(s.records[k].state) && s.now >= s.records[k].deadline then Ended(s, k, TimedOut, "DEADLINE_EXPIRED") else s
  }

  // Calls

  /** The refusal of a start or supersession, and the state in which it is found out. */
  function StartRefusal(s: System, supersede: bool): Option<Answer> {
    if s.closed then Some(PROTOCOL_ERROR)
    else if s.blocked.Some? then Some(OUTCOME_UNKNOWN)
    else if |s.records| >= REQUEST_LIMIT || s.workers >= WORKER_LIMIT then Some(PROTOCOL_ERROR)
    else None
  }

  /** What a start is called with; `goal`, `mode` and `transaction` say whether these are of their types. */
  datatype Arguments = Arguments(goal: bool, expectedRevision: int, timeout: int, delay: int, mode: bool, transaction: bool)

  predicate ValidArguments(a: Arguments) {
    && a.goal && 0 <= a.expectedRevision <= U64_MAX && 50 <= a.timeout <= 5000 && 0 <= a.delay <= 2000
    && a.mode && a.transaction
  }

  /** The arguments are looked at before the lock is taken. */
  function StartCall(s: System, arguments: Arguments, supersede: bool, spawns: bool): (System, Answer) {
    if ValidArguments(arguments) then StartLocked(s, arguments.timeout, supersede, spawns) else (s, PROTOCOL_ERROR)
  }

  function StartLocked(s: System, timeout: nat, supersede: bool, spawns: bool): (System, Answer) {
    var refusal := StartRefusal(s, supersede);
    if refusal.Some? then (s, refusal.value)
    else
      var prior := s.active;
      var t := if prior.Some? && prior.value < |s.records| then Expired(s, prior.value) else s;
      var waiting := prior.Some? && prior.value < |t.records| && PreSubmit(t.records[prior.value].state);
      if waiting && !supersede then (t, PROTOCOL_ERROR)
      else
        var u := if supersede then t.(generation := t.generation + 1) else t;
        var v := if supersede && waiting then Ended(u, prior.value, Superseded, "SUPERSEDED") else u;
        (Added(v, timeout, spawns), Done)
  }

  /** The new request with its worker, if a thread can be had for it. */
  function Added(s: System, timeout: nat, spawns: bool): System {
    var n := |s.records|;
    var r := Request(s.generation, s.now + timeout, Running, 0, None, "", false, false, None, false, NoSender, Starting, None);
    var t := s.(records := s.records + [r], active := Some(n), workers := s.workers + 1);
    if spawns then t
    else Ended(Put(t, n, r.(cleaned := true, worker := Reaped(true))).(workers := s.workers), n, WorkerFailed, "WORKER_START_FAILED")
  }

  function CancelCall(s: System, k: nat): (System, string)
    requires k < |s.records|
  {
    var t := Expired(s, k);
    var r := t.records[k];
    if Busy(r.state) || r.prepared.Some? then (t, "too_late")
    else if !PreSubmit(r.state) then (t, "terminal")
    else (Ended(t, k, Cancelled, "CANCELLED"), "cancelled")
  }

  function RestartCall(s: System): (System, Answer) {
    if s.closed then (s, PROTOCOL_ERROR)
    else
      var t := s.(generation := s.generation + 1);
      if t.active.None? || t.active.value >= |t.records| then (t, Done)
      else
        var u := Expired(t, t.active.value);
        (if PreSubmit(u.records[t.active.value].state) then Ended(u, t.active.value, Superseded, "WORKER_RESTARTED") else u, Done)
  }

  function SubmitCall(s: System, k: nat, spawns: bool): (System, Answer)
    requires k < |s.records|
  {
    var t := Expired(s, k);
    var r := t.records[k];
    if r.state.TimedOut? then (t, Done)
    else if t.closed || !r.state.ProposalReady? || t.active != Some(k) || r.generation != t.generation then (t, PROTOCOL_ERROR)
    else if t.blocked.Some? then (t, OUTCOME_UNKNOWN)
    else if spawns then (Put(t, k, r.(state := Submitting, sender := Checking)).(blocked := Some(k)), Done)
    else (Ended(t, k, WorkerFailed, "SUBMIT_START_FAILED"), Done)
  }

  function RetryCall(s: System, k: nat, spawns: bool): (System, Answer)
    requires k < |s.records|
  {
    var r := s.records[k];
    if s.closed || !r.state.OutcomeUnknown? || r.prepared.None? || !r.started || s.blocked != Some(k) then (s, PROTOCOL_ERROR)
    else if spawns then (Put(s, k, r.(state := Submitting, code := "", sender := Sending)), Done)
    else (Put(s, k, r.(code := "OUTCOME_UNKNOWN")), Done)
  }

  function ReconcileCall(s: System, k: nat, spawns: bool): (System, Answer)
    requires k < |s.records|
  {
    var r := s.records[k];
    if s.closed || s.blocked != Some(k) || !r.state.OutcomeUnknown? then (s, PROTOCOL_ERROR)
    else if spawns then (Put(s, k, r.(state := Reconciling, code := "", sender := Resyncing)), Done)
    else (Put(s, k, r.(code := "RECONCILIATION_FAILED")), Done)
  }

  function CancelAll(s: System, n: nat): System
    requires n <= |s.records|
    decreases n
  {
    if n == 0 then s
    else
      var t := CancelAll(s, n - 1);
      if n - 1 < |t.records| && PreSubmit(t.records[n - 1].state) then Ended(t, n - 1, Cancelled, "SUPERVISOR_CLOSED") else t
  }

  function CloseCall(s: System): System {
    CancelAll(s.(closed := true), |s.records|)
  }

  // Worker threads

  /** How the process of a worker ended, or what broke while it was watched. */
  datatype WorkerResult = Proposal(valid: bool) | Exit(failed: bool, invalid: bool) | Broken(code: string)

  /** The proposal is accepted only while its request is still the current one. */
  function Accepted(s: System, k: nat): System
    requires k < |s.records|
  {
    var t := Expired(s, k);
    var r := t.records[k];
    if t.closed || !r.state.Running? || t.active != Some(k) || r.generation != t.generation
    then Put(t, k, r.(late := r.late + 1))
    else Put(t, k, r.(proposed := true, state := ProposalReady))
  }

  function Failed(s: System, k: nat, x: State, code: string): System
    requires k < |s.records|
  {
    if s.records[k].state.Running? then Ended(s, k, x, code) else s
  }

  /** What is recorded once the process is gone; `expired` was read before it was waited for. */
  function Concluded(s: System, k: nat, result: WorkerResult, expired: bool): System
    requires k < |s.records|
  {
    match result
    case Proposal(valid) => if valid then Accepted(s, k) else Failed(s, k, WorkerFailed, "INVALID_PROPOSAL")
    case Exit(failed, invalid) =>
      if expired then s
      else if failed && !invalid then Failed(s, k, Crashed, "WORKER_CRASHED")
      else Failed(s, k, WorkerFailed, "INVALID_PROPOSAL")
    case Broken(code) => Failed(s, k, WorkerFailed, code)
  }

  /** One critical section of a worker thread. */
  function WorkerStep(s: System, k: nat, result: WorkerResult, expired: bool, cleaned: bool): System
    requires k < |s.records|
  {
    match s.records[k].worker
    case Starting =>
      if s.closed || s.now >= s.records[k].deadline then
        var t := Expired(s, k);
        Put(t, k, t.records[k].(worker := Ending))
      else Put(s, k, s.records[k].(worker := Working))
    case Working =>
      if result.Broken? then
        var t := Failed(s, k, WorkerFailed, result.code);
        Put(t, k, t.records[k].(worker := Ending))
      else
        var t := Expired(s, k);
        Put(t, k, t.records[k].(worker := Exited))
    case Exited =>
      var t := Concluded(s, k, result, expired);
      Put(t, k, t.records[k].(worker := Ending))
    case Ending =>
      var t := Put(s, k, s.records[k].(cleaned := cleaned, worker := Reaped(cleaned)));
      if cleaned then t.(workers := if t.workers > 0 then t.workers - 1 else 0)
      else if PreSubmit(t.records[k].state) then Ended(t, k, WorkerFailed, "CLEANUP_FAILED")
      else t
    case Reaped(_) => s
  }

  // Submission threads

  datatype SendResult = Answered(status: ReceiptStatus) | ApiError(code: string) | Lost

  function Unknown(s: System, k: nat, code: string): System
    requires k < |s.records|
  {
    Put(s, k, s.records[k].(state := OutcomeUnknown, code := code, sender := NoSender))
  }

  /** One step of the thread that prepares, sends and resolves a request; `ok` is whether preparing or resynchronizing succeeded. */
  function SenderStep(s: System, k: nat, ok: bool, result: SendResult): System
    requires k < |s.records|
  {
    var r := s.records[k];
    match r.sender
    case NoSender => s
    case Checking =>
      if s.now >= r.deadline then Ended(Put(s, k, r.(sender := NoSender)).(blocked := None), k, TimedOut, "DEADLINE_EXPIRED")
      else Put(s, k, r.(sender := Preparing))
    case Preparing =>
      if ok then Put(s, k, r.(sender := Prepared(s.serial))).(serial := s.serial + 1) else Unknown(s, k, "OUTCOME_UNKNOWN")
    case Prepared(made) => Put(s, k, r.(prepared := Some(made), made := Some(made), sender := Marking))
    case Marking =>
      if s.now >= r.deadline then Unknown(s, k, "DEADLINE_EXPIRED") else Put(s, k, r.(started := true, sender := Sending))
    case Sending =>
      if r.prepared.None? then Unknown(s, k, "OUTCOME_UNKNOWN")
      else Put(s, k, r.(sender := Sent)).(sent := s.sent + [Submission(k, r.prepared.value)])
    case Sent =>
      (match result
       case Answered(status) =>
         var t := Put(s, k, r.(receipt := Some(status), prepared := None, sender := NoSender)).(blocked := None);
         Ended(t, k, if status.ReceiptCommitted? then Committed else Rejected, "")
       case ApiError(code) => Unknown(s, k, code)
       case Lost => Unknown(s, k, "OUTCOME_UNKNOWN"))
    case Resyncing =>
      if ok then Ended(Put(s, k, r.(prepared := None, sender := NoSender)).(blocked := None), k, Reconciled, "")
      else Unknown(s, k, "RECONCILIATION_FAILED")
  }

  /** What is asked of, or done by a thread of, one request. */
  datatype Action =
    | Cancel
    | Inspect
    | Submit(spawns: bool)
    | Retry(spawns: bool)
    | Reconcile(spawns: bool)
    | WorkerRuns(result: WorkerResult, expired: bool, cleaned: bool)
    | SenderRuns(ok: bool, answer: SendResult)

  datatype Event =
    | Start(arguments: Arguments, supersede: bool, spawns: bool)
    | Restart
    | Close
    | Wait(ms: nat)
    | On(request: nat, action: Action)

  function Act(s: System, k: nat, action: Action): System
    requires k < |s.records|
  {
    match action
    case Cancel => CancelCall(s, k).0
    case Inspect => Expired(s, k)
    case Submit(spawns) => SubmitCall(s, k, spawns).0
    case Retry(spawns) => RetryCall(s, k, spawns).0
    case Reconcile(spawns) => ReconcileCall(s, k, spawns).0
    case WorkerRuns(result, expired, cleaned) => WorkerStep(s, k, result, expired, cleaned)
    case SenderRuns(ok, answer) => SenderStep(s, k, ok, answer)
  }

  function Next(s: System, event: Event): System {
    match event
    case Start(arguments, supersede, spawns) => StartCall(s, arguments, supersede, spawns).0
    case Restart => RestartCall(s).0
    case Close => CloseCall(s)
    case Wait(ms) => s.(now := s.now + ms)
    case On(k, action) => if k < |s.records| then Act(s, k, action) else s
  }

  const OPENED := System(0, false, 1, None, None, 0, [], 0, [])

  // What every interleaving keeps

  /** What holds of each request by itself. */
  predicate RecordSound(r: Request) {
    && (r.receipt.Some? <==> r.state.Committed? || r.state.Rejected?)
    && (r.receipt.Some? ==> (r.receipt.value.ReceiptCommitted? <==> r.state.Committed?))
    && (r.sender.NoSender? <==> !r.state.Submitting? && !r.state.Reconciling?)
    && (r.sender.Resyncing? <==> r.state.Reconciling?)
    && (r.prepared.Some? ==> Busy(r.state) && r.made == r.prepared)
    && (r.sender.Checking? || r.sender.Preparing? || r.sender.Prepared? ==> r.prepared.None? && r.made.None? && !r.started)
    && (r.sender.Marking? || r.sender.Sending? || r.sender.Sent? ==> r.prepared.Some?)
    && (r.sender.Sending? || r.sender.Sent? ==> r.started)
    && (r.started ==> r.made.Some?)
    && (PreSubmit(r.state) ==> r.made.None? && !r.started)
    && (r.state.Cancelled? || r.state.Superseded? || r.state.TimedOut? || r.state.WorkerFailed? || r.state.Crashed? ==> r.made.None?)
  }

  /** At most one request is unfinished, and it is the active one. */
  predicate ActiveOnly(s: System) {
    && (s.active.Some? ==> s.active.value < |s.records| && !Terminal(s.records[s.active.value].state))
    && forall k :: 0 <= k < |s.records| && !Terminal(s.records[k].state) ==> s.active == Some(k)
  }

  /** The blocked request is the one that is submitting, unknown or reconciling. */
  predicate BlockedExact(s: System) {
    && (s.blocked.Some? ==> s.blocked.value < |s.records| && Busy(s.records[s.blocked.value].state))
    && forall k :: 0 <= k < |s.records| && Busy(s.records[k].state) ==> s.blocked == Some(k)
  }

  /** Every network submission sent the one object made for its request. */
  predicate SentExact(s: System) {
    forall i :: 0 <= i < |s.sent| ==>
      && s.sent[i].request < |s.records| && s.records[s.sent[i].request].made == Some(s.sent[i].prepared)
      && s.records[s.sent[i].request].started
  }

  /** No two requests share a prepared object. */
  predicate MadeDistinct(s: System) {
    && (forall k :: 0 <= k < |s.records| ==>
          && (s.records[k].made.Some? ==> s.records[k].made.value < s.serial)
          && (s.records[k].sender.Prepared? ==> s.records[k].sender.made < s.serial))
    && (forall j, k :: 0 <= j < |s.records| && 0 <= k < |s.records| && j != k && s.records[j].made.Some? ==> s.records[j].made != s.records[k].made)
    && forall j, k :: 0 <= j < |s.records| && 0 <= k < |s.records| && s.records[k].sender.Prepared? ==>
         s.records[j].made != Some(s.records[k].sender.made)
         && (j != k && s.records[j].sender.Prepared? ==> s.records[j].sender.made != s.records[k].sender.made)
  }

  predicate RecordsSound(s: System) {
    |s.records| <= REQUEST_LIMIT && forall k :: 0 <= k < |s.records| ==> RecordSound(s.records[k])
  }

  predicate Keeps(s: System) {
    && RecordsSound(s) && ActiveOnly(s) && BlockedExact(s) && SentExact(s) && MadeDistinct(s)
    && (s.closed ==> forall k :: 0 <= k < |s.records| ==> !PreSubmit(s.records[k].state))
  }

  // One request at a time

  /** How one step may change a request. */
  predicate Moves(a: Request, b: Request) {
    && (Terminal(a.state) ==> b.state == a.state && b.receipt == a.receipt && b.code == a.code && b.sender == a.sender)
    && (a.made.Some? ==> b.made == a.made) && (a.started ==> b.started)
    && b.generation == a.generation && b.deadline == a.deadline
    && (b.made.Some? && a.made.None? ==> a.sender.Prepared? && b.made.value == a.sender.made)
  }

  /** One request changes soundly; the active and the blocked one follow. */
  predicate OneChanges(s: System, t: System, k: nat) {
    && k < |s.records| && |t.records| == |s.records|
    && (forall j :: 0 <= j < |s.records| && j != k ==> t.records[j] == s.records[j])
    && RecordSound(t.records[k]) && Moves(s.records[k], t.records[k])
    && t.active == (if Terminal(t.records[k].state) && s.active == Some(k) then None else s.active)
    && t.blocked == (if Busy(t.records[k].state) then Some(k) else if s.blocked == Some(k) then None else s.blocked)
    && (Busy(t.records[k].state) ==> Busy(s.records[k].state) || s.blocked.None?)
    && (!Terminal(t.records[k].state) ==> !Terminal(s.records[k].state))
    && (PreSubmit(t.records[k].state) ==> PreSubmit(s.records[k].state))
    && t.closed == s.closed && t.generation == s.generation
    && (t.sent == s.sent || SentOne(s, t, k))
    && (if t.records[k].sender.Prepared? && !s.records[k].sender.Prepared?
        then t.serial == s.serial + 1 && t.records[k].sender.made == s.serial
        else t.serial == s.serial && (t.records[k].sender.Prepared? ==> t.records[k].sender == s.records[k].sender))
  }

  predicate SentOne(s: System, t: System, k: nat)
    requires k < |t.records|
  {
    var r := t.records[k];
    r.prepared.Some? && r.started && t.sent == s.sent + [Submission(k, r.prepared.value)]
  }

  lemma OneKeepsOrder(s: System, t: System, k: nat)
    requires RecordsSound(s) && ActiveOnly(s) && BlockedExact(s) && OneChanges(s, t, k)
    ensures RecordsSound(t) && ActiveOnly(t) && BlockedExact(t)
  {
    hide RecordSound;
    forall j | 0 <= j < |t.records|
      ensures RecordSound(t.records[j])
      ensures !Terminal(t.records[j].state) ==> t.active == Some(j)
      ensures Busy(t.records[j].state) ==> t.blocked == Some(j)
    {
      assert j != k ==> t.records[j] == s.records[j];
    }
  }

  lemma OneKeepsSent(s: System, t: System, k: nat)
    requires SentExact(s) && OneChanges(s, t, k)
    ensures SentExact(t)
  {
    PreparedMade(t.records[k]);
    hide RecordSound;
    forall i | 0 <= i < |t.sent|
      ensures t.sent[i].request < |t.records| && t.records[t.sent[i].request].made == Some(t.sent[i].prepared)
      ensures t.records[t.sent[i].request].started
    {
      if i < |s.sent| {
        assert t.sent[i] == s.sent[i];
        assert t.sent[i].request != k ==> t.records[t.sent[i].request] == s.records[t.sent[i].request];
      }
    }
  }

  lemma PreparedMade(r: Request)
    requires RecordSound(r)
    ensures r.prepared.Some? ==> r.made == r.prepared
    ensures r.sender.Prepared? ==> r.made.None?
  {
  }

  lemma OneKeepsMade(s: System, t: System, k: nat)
    requires MadeDistinct(s) && OneChanges(s, t, k)
    ensures MadeDistinct(t)
  {
    PreparedMade(t.records[k]);
    hide RecordSound;
    assert forall j :: 0 <= j < |s.records| && j != k ==> t.records[j] == s.records[j];
  }

  lemma OneKeeps(s: System, t: System, k: nat)
    requires Keeps(s) && OneChanges(s, t, k)
    ensures Keeps(t)
  {
    OneKeepsOrder(s, t, k);
    OneKeepsSent(s, t, k);
    OneKeepsMade(s, t, k);
    hide RecordSound, RecordsSound, ActiveOnly, BlockedExact, SentExact, MadeDistinct;
    assert forall j :: 0 <= j < |s.records| && j != k ==> t.records[j] == s.records[j];
  }

  /** Ending a request that has not been submitted. */
  lemma EndedChanges(s: System, k: nat, x: State, code: string)
    requires Keeps(s) && k < |s.records| && PreSubmit(s.records[k].state)
    requires x.Cancelled? || x.Superseded? || x.TimedOut? || x.WorkerFailed? || x.Crashed?
    ensures OneChanges(s, Ended(s, k, x, code), k)
  {
    assert RecordSound(s.records[k]);
  }

  lemma SameChanges(s: System, k: nat)
    requires Keeps(s) && k < |s.records|
    ensures OneChanges(s, s, k)
  {
    assert RecordSound(s.records[k]);
  }

  lemma ExpiredChanges(s: System, k: nat)
    requires Keeps(s) && k < |s.records|
    ensures OneChanges(s, Expired(s, k), k)
  {
    hide OneChanges;
    if PreSubmit(s.records[k].state) && s.now >= s.records[k].deadline {
      EndedChanges(s, k, TimedOut, "DEADLINE_EXPIRED");
    } else {
      SameChanges(s, k);
    }
  }

  lemma WorkerMarked(s: System, t: System, k: nat, worker: Worker)
    requires OneChanges(s, t, k)
    ensures OneChanges(s, Put(t, k, t.records[k].(worker := worker)), k)
  {
  }

  lemma FailedChanges(s: System, k: nat, x: State, code: string)
    requires Keeps(s) && k < |s.records| && (x.WorkerFailed? || x.Crashed?)
    ensures OneChanges(s, Failed(s, k, x, code), k)
  {
    hide OneChanges, Keeps;
    if s.records[k].state.Running? {
      EndedChanges(s, k, x, code);
    } else {
      SameChanges(s, k);
    }
  }

  lemma AcceptedChanges(s: System, k: nat)
    requires Keeps(s) && k < |s.records|
    ensures OneChanges(s, Accepted(s, k), k)
  {
    ExpiredChanges(s, k);
    assert RecordSound(s.records[k]);
  }

  /** One change after another; neither sends nor prepares anything. */
  lemma Then(s: System, t: System, u: System, k: nat)
    requires Keeps(s) && OneChanges(s, t, k) && OneChanges(t, u, k) && s.sent == t.sent == u.sent && s.serial == t.serial == u.serial
    ensures OneChanges(s, u, k)
  {
    hide RecordSound, SentExact, MadeDistinct;
  }

  lemma WorkerChanges(s: System, k: nat, result: WorkerResult, expired: bool, cleaned: bool)
    requires Keeps(s) && k < |s.records|
    ensures OneChanges(s, WorkerStep(s, k, result, expired, cleaned), k)
  {
    hide OneChanges, Keeps, RecordSound, Expired, Failed, Concluded;
    var t := Expired(s, k);
    ExpiredChanges(s, k);
    SameChanges(s, k);
    match s.records[k].worker
    case Starting =>
      WorkerMarked(s, s, k, Working);
      WorkerMarked(s, t, k, Ending);
    case Working =>
      if result.Broken? {
        FailedChanges(s, k, WorkerFailed, result.code);
        WorkerMarked(s, Failed(s, k, WorkerFailed, result.code), k, Ending);
      } else {
        WorkerMarked(s, t, k, Exited);
      }
    case Exited =>
      ConcludedChanges(s, k, result, expired);
      WorkerMarked(s, Concluded(s, k, result, expired), k, Ending);
    case Ending => EndingChanges(s, k, cleaned);
    case Reaped(_) =>
  }

  lemma ExpiredQuiet(s: System, k: nat)
    requires k < |s.records|
    ensures Expired(s, k).sent == s.sent && Expired(s, k).serial == s.serial && |Expired(s, k).records| == |s.records|
  {
  }

  lemma ConcludedChanges(s: System, k: nat, result: WorkerResult, expired: bool)
    requires Keeps(s) && k < |s.records|
    ensures OneChanges(s, Concluded(s, k, result, expired), k)
  {
    hide OneChanges, Keeps, RecordSound, Accepted, Failed;
    SameChanges(s, k);
    AcceptedChanges(s, k);
    FailedChanges(s, k, WorkerFailed, if result.Broken? then result.code else "INVALID_PROPOSAL");
    FailedChanges(s, k, Crashed, "WORKER_CRASHED");
  }

  lemma EndingChanges(s: System, k: nat, cleaned: bool)
    requires Keeps(s) && k < |s.records| && s.records[k].worker.Ending?
    ensures OneChanges(s, WorkerStep(s, k, Broken(""), false, cleaned), k)
    ensures forall result, expired :: WorkerStep(s, k, result, expired, cleaned) == WorkerStep(s, k, Broken(""), false, cleaned)
  {
    assert RecordSound(s.records[k]);
  }

  /** Where a request stands among the others. */
  lemma Standing(s: System, k: nat)
    requires Keeps(s) && k < |s.records|
    ensures RecordSound(s.records[k])
    ensures Busy(s.records[k].state) <==> s.blocked == Some(k)
    ensures !Terminal(s.records[k].state) <==> s.active == Some(k)
  {
    hide RecordSound, SentExact, MadeDistinct;
  }

  lemma CancelChanges(s: System, k: nat)
    requires Keeps(s) && k < |s.records|
    ensures OneChanges(s, CancelCall(s, k).0, k)
  {
    hide Keeps, OneChanges, Expired, Ended, RecordSound;
    var t := Expired(s, k);
    ExpiredChanges(s, k);
    OneKeeps(s, t, k);
    ExpiredQuiet(s, k);
    if PreSubmit(t.records[k].state) {
      EndedChanges(t, k, Cancelled, "CANCELLED");
      EndedQuiet(t, k, Cancelled, "CANCELLED");
      Then(s, t, Ended(t, k, Cancelled, "CANCELLED"), k);
    }
  }

  lemma EndedQuiet(s: System, k: nat, x: State, code: string)
    requires k < |s.records|
    ensures Ended(s, k, x, code).sent == s.sent && Ended(s, k, x, code).serial == s.serial
  {
  }

  lemma SubmitChanges(s: System, k: nat, spawns: bool)
    requires Keeps(s) && k < |s.records|
    ensures OneChanges(s, SubmitCall(s, k, spawns).0, k)
  {
    hide Keeps;
    Standing(s, k);
  }

  lemma AgainChanges(s: System, k: nat, spawns: bool)
    requires Keeps(s) && k < |s.records|
    ensures OneChanges(s, RetryCall(s, k, spawns).0, k) && OneChanges(s, ReconcileCall(s, k, spawns).0, k)
  {
    hide Keeps;
    Standing(s, k);
  }

  lemma FirstChanges(s: System, k: nat, ok: bool, result: SendResult)
    requires Keeps(s) && k < |s.records| && (s.records[k].sender.Checking? || s.records[k].sender.Preparing? || s.records[k].sender.Prepared?)
    ensures OneChanges(s, SenderStep(s, k, ok, result), k)
  {
    hide Keeps;
    Standing(s, k);
  }

  lemma MarkChanges(s: System, k: nat, ok: bool, result: SendResult)
    requires Keeps(s) && k < |s.records| && (s.records[k].sender.Marking? || s.records[k].sender.Sending?)
    ensures OneChanges(s, SenderStep(s, k, ok, result), k)
  {
    hide Keeps;
    Standing(s, k);
  }

  lemma LastChanges(s: System, k: nat, ok: bool, result: SendResult)
    requires Keeps(s) && k < |s.records| && (s.records[k].sender.Sent? || s.records[k].sender.Resyncing? || s.records[k].sender.NoSender?)
    ensures OneChanges(s, SenderStep(s, k, ok, result), k)
  {
    hide Keeps;
    Standing(s, k);
  }

  lemma SenderChanges(s: System, k: nat, ok: bool, result: SendResult)
    requires Keeps(s) && k < |s.records|
    ensures OneChanges(s, SenderStep(s, k, ok, result), k)
  {
    hide Keeps, OneChanges, SenderStep;
    match s.records[k].sender
    case Checking => FirstChanges(s, k, ok, result);
    case Preparing => FirstChanges(s, k, ok, result);
    case Prepared(_) => FirstChanges(s, k, ok, result);
    case Marking => MarkChanges(s, k, ok, result);
    case Sending => MarkChanges(s, k, ok, result);
    case _ => LastChanges(s, k, ok, result);
  }

  lemma ActChanges(s: System, k: nat, action: Action)
    requires Keeps(s) && k < |s.records|
    ensures OneChanges(s, Act(s, k, action), k)
  {
    hide OneChanges, Keeps, WorkerStep, SenderStep, CancelCall, SubmitCall, RetryCall, ReconcileCall, Expired;
    match action
    case Inspect => ExpiredChanges(s, k);
    case WorkerRuns(result, expired, cleaned) => WorkerChanges(s, k, result, expired, cleaned);
    case SenderRuns(ok, answer) => SenderChanges(s, k, ok, answer);
    case Cancel => CancelChanges(s, k);
    case Submit(spawns) => SubmitChanges(s, k, spawns);
    case Retry(spawns) => AgainChanges(s, k, spawns);
    case Reconcile(spawns) => AgainChanges(s, k, spawns);
  }

  lemma ActKept(s: System, k: nat, action: Action)
    requires Keeps(s) && k < |s.records|
    ensures Keeps(Act(s, k, action))
  {
    hide OneChanges, Keeps, Act;
    ActChanges(s, k, action);
    OneKeeps(s, Act(s, k, action), k);
  }

  // The calls that concern every request

  lemma NewGeneration(s: System)
    requires Keeps(s)
    ensures Keeps(s.(generation := s.generation + 1))
  {
    hide RecordSound;
  }

  lemma WaitKeeps(s: System, ms: nat)
    requires Keeps(s)
    ensures Keeps(s.(now := s.now + ms))
  {
    hide RecordSound;
  }

  lemma EndedKeeps(s: System, k: nat, x: State, code: string)
    requires Keeps(s) && k < |s.records| && PreSubmit(s.records[k].state)
    requires x.Cancelled? || x.Superseded? || x.TimedOut? || x.WorkerFailed? || x.Crashed?
    ensures Keeps(Ended(s, k, x, code))
  {
    hide Keeps, OneChanges, Ended;
    EndedChanges(s, k, x, code);
    OneKeeps(s, Ended(s, k, x, code), k);
  }

  lemma ExpiredKeeps(s: System, k: nat)
    requires Keeps(s) && k < |s.records|
    ensures Keeps(Expired(s, k))
  {
    hide Keeps, OneChanges, Expired;
    ExpiredChanges(s, k);
    OneKeeps(s, Expired(s, k), k);
  }

  /** A new request, when no other is unfinished. */
  lemma AddedKeeps(s: System, r: Request, workers: nat)
    requires Keeps(s) && s.active.None? && s.blocked.None? && !s.closed && |s.records| < REQUEST_LIMIT
    requires RecordSound(r) && r.made.None? && r.sender.NoSender? && (r.state.Running? || r.state.WorkerFailed?)
    ensures
      var n := |s.records|;
      Keeps(s.(records := s.records + [r], active := if Terminal(r.state) then None else Some(n), workers := workers))
  {
    hide RecordSound;
    var n, more := |s.records|, s.records + [r];
    assert forall k :: 0 <= k < n ==> more[k] == s.records[k];
  }

  /** Clearing the way for a new request: afterwards none is unfinished, or the start is refused. */
  lemma StartKeeps(s: System, timeout: nat, supersede: bool, spawns: bool)
    requires Keeps(s)
    ensures Keeps(StartLocked(s, timeout, supersede, spawns).0)
  {
    hide Keeps, Expired, Ended;
    KeepsActive(s);
    if StartRefusal(s, supersede).None? {
      if s.active.Some? {
        ExpiredKeeps(s, s.active.value);
        ExpiredFields(s, s.active.value);
      }
      var t := if s.active.Some? then Expired(s, s.active.value) else s;
      KeepsActive(t);
      var waiting := s.active.Some? && PreSubmit(t.records[s.active.value].state);
      if !waiting || supersede {
        NewGeneration(t);
        var u := if supersede then t.(generation := t.generation + 1) else t;
        if supersede && waiting {
          EndedKeeps(u, s.active.value, Superseded, "SUPERSEDED");
          EndedFields(u, s.active.value, Superseded, "SUPERSEDED");
        }
        var v := if supersede && waiting then Ended(u, s.active.value, Superseded, "SUPERSEDED") else u;
        KeepsActive(v);
        StartedKeeps(s, t, u, v, timeout, supersede, spawns);
      }
    }
  }

  lemma KeepsActive(s: System)
    requires Keeps(s)
    ensures s.active.Some? ==> s.active.value < |s.records| && !Terminal(s.records[s.active.value].state)
    ensures s.blocked.None? && s.active.Some? ==> PreSubmit(s.records[s.active.value].state)
    ensures s.closed ==> forall k :: 0 <= k < |s.records| ==> !PreSubmit(s.records[k].state)
  {
    hide RecordSound, SentExact, MadeDistinct;
  }

  lemma ExpiredFields(s: System, k: nat)
    requires k < |s.records|
    ensures
      var t := Expired(s, k);
      && |t.records| == |s.records| && t.blocked == s.blocked && t.closed == s.closed && t.generation == s.generation
      && (t.active == s.active || t.active == None) && (t.active == None ==> s.active == None || s.active == Some(k))
      && (PreSubmit(t.records[k].state) ==> t.active == s.active)
      && t.now == s.now && t.workers == s.workers
  {
  }

  lemma EndedFields(s: System, k: nat, x: State, code: string)
    requires k < |s.records|
    ensures
      var t := Ended(s, k, x, code);
      && |t.records| == |s.records| && t.blocked == s.blocked && t.closed == s.closed && t.generation == s.generation
      && (s.active == Some(k) ==> t.active == None) && t.now == s.now && t.workers == s.workers
      && t.records[k] == s.records[k].(state := x, code := code)
  {
  }

  lemma StartedKeeps(s: System, t: System, u: System, v: System, timeout: nat, supersede: bool, spawns: bool)
    requires Keeps(v) && v.active.None? && v.blocked.None? && !v.closed && |v.records| < REQUEST_LIMIT
    requires StartRefusal(s, supersede).None?
    requires t == if s.active.Some? && s.active.value < |s.records| then Expired(s, s.active.value) else s
    requires u == if supersede then t.(generation := t.generation + 1) else t
    requires
      var waiting := s.active.Some? && s.active.value < |t.records| && PreSubmit(t.records[s.active.value].state);
      && (waiting ==> supersede)
      && v == if supersede && waiting then Ended(u, s.active.value, Superseded, "SUPERSEDED") else u
    ensures Keeps(StartLocked(s, timeout, supersede, spawns).0)
  {
    hide Keeps, Expired;
    var n := |v.records|;
    var r := Request(v.generation, v.now + timeout, Running, 0, None, "", false, false, None, false, NoSender, Starting, None);
    var f := r.(cleaned := true, worker := Reaped(true), state := WorkerFailed, code := "WORKER_START_FAILED");
    AddedKeeps(v, r, v.workers + 1);
    AddedKeeps(v, f, v.workers);
    assert (v.records + [r])[n := f] == v.records + [f];
    assert (v.records + [r])[n := f.(state := Running, code := "")][n := f] == v.records + [f];
  }

  lemma RestartKeeps(s: System)
    requires Keeps(s)
    ensures Keeps(RestartCall(s).0)
  {
    hide Keeps, Expired, Ended;
    if !s.closed {
      var t := s.(generation := s.generation + 1);
      NewGeneration(s);
      KeepsActive(t);
      if t.active.Some? {
        ExpiredKeeps(t, t.active.value);
        ExpiredFields(t, t.active.value);
        var u := Expired(t, t.active.value);
        if PreSubmit(u.records[t.active.value].state) {
          EndedKeeps(u, t.active.value, Superseded, "WORKER_RESTARTED");
        }
      }
    }
  }

  /** What holds while a closing call goes through the records. */
  predicate Clearing(s: System) {
    Keeps(s.(closed := false))
  }

  lemma {:induction false} CancelAllKeeps(s: System, n: nat)
    requires Clearing(s) && n <= |s.records|
    ensures
      var t := CancelAll(s, n);
      && Clearing(t) && |t.records| == |s.records| && t.closed == s.closed
      && forall k :: 0 <= k < n ==> !PreSubmit(t.records[k].state)
    decreases n
  {
    hide Keeps, Ended;
    if n > 0 {
      CancelAllKeeps(s, n - 1);
      var t := CancelAll(s, n - 1);
      if PreSubmit(t.records[n - 1].state) {
        EndedKeeps(t.(closed := false), n - 1, Cancelled, "SUPERVISOR_CLOSED");
        EndedOpen(t, n - 1, Cancelled, "SUPERVISOR_CLOSED");
      }
    }
  }

  lemma EndedOpen(s: System, k: nat, x: State, code: string)
    requires k < |s.records|
    ensures Ended(s.(closed := false), k, x, code) == Ended(s, k, x, code).(closed := false)
    ensures Ended(s, k, x, code).closed == s.closed && |Ended(s, k, x, code).records| == |s.records|
    ensures forall j :: 0 <= j < |s.records| ==>
      Ended(s, k, x, code).records[j] == if j == k then s.records[k].(state := x, code := code) else s.records[j]
  {
  }

  lemma CloseKeeps(s: System)
    requires Keeps(s)
    ensures Keeps(CloseCall(s))
  {
    hide CancelAll, RecordSound;
    var t := s.(closed := true);
    assert t.(closed := false) == s.(closed := false);
    OpenKeeps(s);
    CancelAllKeeps(t, |s.records|);
    ClearedKeeps(CancelAll(t, |s.records|));
  }

  lemma OpenKeeps(s: System)
    requires Keeps(s)
    ensures Keeps(s.(closed := false))
  {
    hide RecordSound;
  }

  lemma ClearedKeeps(s: System)
    requires Clearing(s) && forall k :: 0 <= k < |s.records| ==> !PreSubmit(s.records[k].state)
    ensures Keeps(s)
  {
    hide RecordSound;
  }

  lemma NextKeeps(s: System, event: Event)
    requires Keeps(s)
    ensures Keeps(Next(s, event))
  {
    hide Keeps, StartLocked, RestartCall, CloseCall, Act;
    match event
    case Start(arguments, supersede, spawns) =>
      if ValidArguments(arguments) {
        StartKeeps(s, arguments.timeout, supersede, spawns);
      }
    case Restart => RestartKeeps(s);
    case Close => CloseKeeps(s);
    case Wait(ms) => WaitKeeps(s, ms);
    case On(k, action) =>
      if k < |s.records| {
        ActKept(s, k, action);
      }
  }

  ghost predicate Run(states: seq<System>, events: seq<Event>) {
    && |states| == |events| + 1 && states[0] == OPENED
    && forall k :: 0 <= k < |events| ==> states[k + 1] == Next(states[k], events[k])
  }

  lemma OpenedKeeps()
    ensures Keeps(OPENED)
  {
  }

  lemma {:induction false} RunKeeps(states: seq<System>, events: seq<Event>, n: nat)
    requires Run(states, events) && n <= |events|
    ensures Keeps(states[n])
  {
    hide Next, Keeps;
    if n == 0 {
      OpenedKeeps();
    } else {
      RunKeeps(states, events, n - 1);
      NextKeeps(states[n - 1], events[n - 1]);
    }
  }

  /** In every interleaving at most one request is unfinished, and it is the active one; a blocked request is that one;
      a receipt is there exactly when the request is committed or rejected; every network submission sent the one object
      prepared for its request, and no request that ended before submitting ever sent one. */
  lemma SupervisorSound(states: seq<System>, events: seq<Event>, n: nat)
    requires Run(states, events) && n <= |events|
    ensures
      var s := states[n];
      && (forall j, k :: 0 <= j < |s.records| && 0 <= k < |s.records| && !Terminal(s.records[j].state) && !Terminal(s.records[k].state) ==> j == k)
      && (forall k :: 0 <= k < |s.records| ==> (!Terminal(s.records[k].state) <==> s.active == Some(k)))
      && (forall k :: 0 <= k < |s.records| ==> (Busy(s.records[k].state) <==> s.blocked == Some(k)))
      && (forall k :: 0 <= k < |s.records| ==> (s.records[k].receipt.Some? <==> s.records[k].state.Committed? || s.records[k].state.Rejected?))
      && (forall i :: 0 <= i < |s.sent| ==>
            && s.sent[i].request < |s.records|
            && s.records[s.sent[i].request].made == Some(s.sent[i].prepared)
            && !PreSubmit(s.records[s.sent[i].request].state)
            && !s.records[s.sent[i].request].state.Cancelled? && !s.records[s.sent[i].request].state.Superseded?)
      && (forall i, j :: 0 <= i < |s.sent| && 0 <= j < |s.sent| && s.sent[i].request != s.sent[j].request ==>
            s.sent[i].prepared != s.sent[j].prepared)
  {
    hide Run, Next, RecordSound;
    RunSize(states, events);
    RunKeeps(states, events, n);
    var s := states[n];
    forall k | 0 <= k < |s.records|
      ensures !Terminal(s.records[k].state) <==> s.active == Some(k)
      ensures Busy(s.records[k].state) <==> s.blocked == Some(k)
      ensures s.records[k].receipt.Some? <==> s.records[k].state.Committed? || s.records[k].state.Rejected?
      ensures s.records[k].made.Some? ==> !PreSubmit(s.records[k].state) && !s.records[k].state.Cancelled? && !s.records[k].state.Superseded?
    {
      Standing(s, k);
      SoundFacts(s.records[k]);
    }
  }

  lemma RunSize(states: seq<System>, events: seq<Event>)
    requires Run(states, events)
    ensures |states| == |events| + 1
  {
  }

  lemma SoundFacts(r: Request)
    requires RecordSound(r)
    ensures r.receipt.Some? <==> r.state.Committed? || r.state.Rejected?
    ensures r.made.Some? ==> !PreSubmit(r.state) && !r.state.Cancelled? && !r.state.Superseded?
  {
  }

  /** How far one event may change any request: a finished one stays as it is. */
  lemma NextMoves(s: System, event: Event, k: nat)
    requires Keeps(s) && k < |s.records|
    ensures k < |Next(s, event).records| && Moves(s.records[k], Next(s, event).records[k])
  {
    Standing(s, k);
    hide Keeps;
    match event
    case Start(arguments, supersede, spawns) =>
      if ValidArguments(arguments) {
        StartMoves(s, arguments.timeout, supersede, spawns, k);
      }
    case Restart => RestartMoves(s, k);
    case Close => CancelAllMoves(s.(closed := true), |s.records|, k);
    case Wait(ms) =>
    case On(j, action) =>
      if j < |s.records| {
        ActChanges(s, j, action);
        ActMoves(s, j, action, k);
      }
  }

  lemma ActMoves(s: System, j: nat, action: Action, k: nat)
    requires j < |s.records| && k < |s.records| && OneChanges(s, Act(s, j, action), j)
    ensures k < |Act(s, j, action).records| && Moves(s.records[k], Act(s, j, action).records[k])
  {
    hide Act, RecordSound;
  }

  lemma StartMoves(s: System, timeout: nat, supersede: bool, spawns: bool, k: nat)
    requires k < |s.records|
    ensures
      var t := StartLocked(s, timeout, supersede, spawns).0;
      k < |t.records| && Moves(s.records[k], t.records[k])
  {
    hide Expired, Ended, Terminal, PreSubmit;
    if StartRefusal(s, supersede).None? {
      var t := if s.active.Some? && s.active.value < |s.records| then Expired(s, s.active.value) else s;
      if s.active.Some? && s.active.value < |s.records| {
        ExpiredMoves(s, s.active.value, k);
      }
      var u := if supersede then t.(generation := t.generation + 1) else t;
      if s.active.Some? && s.active.value < |t.records| && PreSubmit(t.records[s.active.value].state) {
        EndedMoves(u, s.active.value, Superseded, "SUPERSEDED", k);
        MovesThen(s.records[k], t.records[k], Ended(u, s.active.value, Superseded, "SUPERSEDED").records[k]);
      }
      NewMoves(s, timeout, supersede, spawns);
    }
  }

  /** The new request is put after the others. */
  lemma NewMoves(s: System, timeout: nat, supersede: bool, spawns: bool)
    requires StartRefusal(s, supersede).None?
    ensures
      var t := if s.active.Some? && s.active.value < |s.records| then Expired(s, s.active.value) else s;
      var u := if supersede then t.(generation := t.generation + 1) else t;
      var waiting := s.active.Some? && s.active.value < |t.records| && PreSubmit(t.records[s.active.value].state);
      var v := if supersede && waiting then Ended(u, s.active.value, Superseded, "SUPERSEDED") else u;
      var w := StartLocked(s, timeout, supersede, spawns).0;
      |w.records| >= |v.records| && forall k :: 0 <= k < |v.records| ==> w.records[k] == v.records[k]
  {
    hide Expired, Terminal, PreSubmit;
  }

  lemma ExpiredMoves(s: System, j: nat, k: nat)
    requires j < |s.records| && k < |s.records|
    ensures |Expired(s, j).records| == |s.records| && Moves(s.records[k], Expired(s, j).records[k])
    ensures Expired(s, j).records[k].made == s.records[k].made
  {
  }

  lemma EndedMoves(s: System, j: nat, x: State, code: string, k: nat)
    requires j < |s.records| && k < |s.records| && PreSubmit(s.records[j].state)
    ensures |Ended(s, j, x, code).records| == |s.records| && Moves(s.records[k], Ended(s, j, x, code).records[k])
    ensures Ended(s, j, x, code).records[k].made == s.records[k].made
  {
  }

  lemma MovesThen(a: Request, b: Request, c: Request)
    requires Moves(a, b) && Moves(b, c) && b.made == a.made == c.made
    ensures Moves(a, c)
  {
  }

  lemma RestartMoves(s: System, k: nat)
    requires k < |s.records|
    ensures k < |RestartCall(s).0.records| && Moves(s.records[k], RestartCall(s).0.records[k])
  {
  }

  lemma {:induction false} CancelAllMoves(s: System, n: nat, k: nat)
    requires n <= |s.records| && k < |s.records|
    ensures |CancelAll(s, n).records| == |s.records| && Moves(s.records[k], CancelAll(s, n).records[k])
    decreases n
  {
    if n > 0 {
      CancelAllMoves(s, n - 1, k);
    }
  }

  /** Final states are absorbing: over any later events state, receipt and error stay, and so does the object made. */
  lemma {:induction false} TerminalStays(states: seq<System>, events: seq<Event>, m: nat, n: nat, k: nat)
    requires Run(states, events) && m <= n <= |events| && k < |states[m].records|
    ensures k < |states[n].records|
    ensures
      var (a, b) := (states[m].records[k], states[n].records[k]);
      && (Terminal(a.state) ==> b.state == a.state && b.receipt == a.receipt && b.code == a.code)
      && (a.made.Some? ==> b.made == a.made)
    decreases n
  {
    hide Next, Keeps, RecordSound;
    if m < n {
      TerminalStays(states, events, m, n - 1, k);
      RunKeeps(states, events, n - 1);
      NextMoves(states[n - 1], events[n - 1], k);
    }
  }

  /** A cancellation that is answered `cancelled` came in time: nothing was ever sent for the request, and nothing will be. */
  lemma CancelledNeverSends(states: seq<System>, events: seq<Event>, m: nat, n: nat, k: nat)
    requires Run(states, events) && m < n <= |events| && k < |states[m].records|
    requires events[m] == On(k, Cancel) && CancelCall(states[m], k).1 == "cancelled"
    ensures forall i :: 0 <= i < |states[n].sent| ==> states[n].sent[i].request != k
  {
    hide Keeps, RecordSound;
    RunKeeps(states, events, m);
    assert states[m + 1] == Next(states[m], events[m]);
    NextMoves(states[m], events[m], k);
    assert states[m + 1].records[k].state.Cancelled?;
    TerminalStays(states, events, m + 1, n, k);
    SupervisorSound(states, events, n);
  }
}
