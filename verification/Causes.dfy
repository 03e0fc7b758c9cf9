/** Why a supervised request is in the state it is in: what each change of state was caused by. */
module Causes {
  import opened Prelude
  import opened Supervisor

  // One event

  predicate Late(s: System, k: nat)
    requires k < |s.records|
  {
    s.now >= s.records[k].deadline
  }

  /** The event is this action on request `k`. */
  predicate Worked(s: System, event: Event, k: nat, worker: Worker)
    requires k < |s.records|
  {
    event.On? && event.request == k && event.action.WorkerRuns? && s.records[k].worker == worker
  }

  predicate Sends(s: System, event: Event, k: nat)
    requires k < |s.records|
  {
    event.On? && event.request == k && event.action.SenderRuns?
  }

  /** A start that is not turned away at the door. */
  predicate Admits(s: System, event: Event) {
    && event.Start? && ValidArguments(event.arguments)
    && !s.closed && s.blocked.None? && |s.records| < REQUEST_LIMIT && s.workers < WORKER_LIMIT
  }

  /** The event looks at the deadline of a request that has not been submitted. */
  predicate Looks(s: System, event: Event, k: nat)
    requires k < |s.records|
  {
    || Admits(s, event)
    || event.Restart?
    || (event.On? && event.request == k && (event.action.Inspect? || event.action.Cancel? || event.action.Submit?))
    || Worked(s, event, k, Starting)
    || (Worked(s, event, k, Working) && !event.action.result.Broken?)
    || (Worked(s, event, k, Exited) && event.action.result == Proposal(true))
  }

  predicate TimesOut(s: System, event: Event, k: nat)
    requires k < |s.records|
  {
    Late(s, k) && ((PreSubmit(s.records[k].state) && Looks(s, event, k)) || (s.records[k].sender.Checking? && Sends(s, event, k)))
  }

  predicate Cancels(s: System, event: Event, k: nat)
    requires k < |s.records|
  {
    PreSubmit(s.records[k].state) && (event.Close? || (event == On(k, Cancel) && !Late(s, k)))
  }

  predicate Supersedes(s: System, event: Event, k: nat)
    requires k < |s.records|
  {
    PreSubmit(s.records[k].state) && !Late(s, k) && (event.Restart? || (Admits(s, event) && event.supersede))
  }

  /** A valid proposal of the current generation, in time. */
  predicate Proposes(s: System, event: Event, k: nat)
    requires k < |s.records|
  {
    && s.records[k].state.Running? && s.records[k].generation == s.generation && !Late(s, k)
    && Worked(s, event, k, Exited) && event.action.result == Proposal(true)
  }

  /** A proposal of the current generation is submitted, in time. */
  predicate MaySubmit(s: System, event: Event, k: nat)
    requires k < |s.records|
  {
    && s.records[k].state.ProposalReady? && s.records[k].generation == s.generation && !Late(s, k)
    && event.On? && event.request == k && event.action.Submit?
  }

  predicate MayRetry(s: System, event: Event, k: nat)
    requires k < |s.records|
  {
    && s.records[k].state.OutcomeUnknown? && s.records[k].prepared.Some? && s.records[k].started && !s.closed
    && event.On? && event.request == k && event.action.Retry?
  }

  predicate MayReconcile(s: System, event: Event, k: nat)
    requires k < |s.records|
  {
    s.records[k].state.OutcomeUnknown? && !s.closed && event.On? && event.request == k && event.action.Reconcile?
  }

  /** The host answered the submission of request `k` with this status. */
  predicate Answers(s: System, event: Event, k: nat, status: ReceiptStatus)
    requires k < |s.records|
  {
    s.records[k].sender.Sent? && Sends(s, event, k) && event.action.answer == Answered(status)
  }

  /** The submission or the reconciliation of a request ended without an answer. */
  predicate LosesTrack(s: System, event: Event, k: nat)
    requires k < |s.records|
  {
    var sender := s.records[k].sender;
    Sends(s, event, k) && (
      || ((sender.Preparing? || sender.Resyncing?) && !event.action.ok)
      || (sender.Marking? && Late(s, k))
      || (sender.Sent? && !event.action.answer.Answered?))
  }

  predicate Crashes(s: System, event: Event, k: nat)
    requires k < |s.records|
  {
    s.records[k].state.Running? && Worked(s, event, k, Exited) && event.action.result == Exit(true, false) && !event.action.expired
  }

  predicate FailsWork(s: System, event: Event, k: nat)
    requires k < |s.records|
  {
    s.records[k].state.Running? && (
      || (Worked(s, event, k, Working) && event.action.result.Broken?)
      || (Worked(s, event, k, Exited) && (
            || event.action.result.Broken? || event.action.result == Proposal(false)
            || (event.action.result.Exit? && event.action.result != Exit(true, false) && !event.action.expired))))
  }

  predicate FailsCleanup(s: System, event: Event, k: nat)
    requires k < |s.records|
  {
    PreSubmit(s.records[k].state) && Worked(s, event, k, Ending) && !event.action.cleaned
  }

  /** The state and the error code of request `k` after the event, by cause. */
  function Caused(s: System, event: Event, k: nat): (State, string)
    requires k < |s.records|
  {
    var r := s.records[k];
    if TimesOut(s, event, k) then (TimedOut, "DEADLINE_EXPIRED")
    else if Cancels(s, event, k) then (Cancelled, if event.Close? then "SUPERVISOR_CLOSED" else "CANCELLED")
    else if Supersedes(s, event, k) then (Superseded, if event.Restart? then "WORKER_RESTARTED" else "SUPERSEDED")
    else if Proposes(s, event, k) then (ProposalReady, r.code)
    else if MaySubmit(s, event, k) then (if event.action.spawns then (Submitting, r.code) else (WorkerFailed, "SUBMIT_START_FAILED"))
    else if MayRetry(s, event, k) then (if event.action.spawns then (Submitting, "") else (OutcomeUnknown, "OUTCOME_UNKNOWN"))
    else if MayReconcile(s, event, k) then (if event.action.spawns then (Reconciling, "") else (OutcomeUnknown, "RECONCILIATION_FAILED"))
    else if Answers(s, event, k, ReceiptCommitted) then (Committed, "")
    else if Answers(s, event, k, ReceiptRejected) then (Rejected, "")
    else if r.sender.Resyncing? && Sends(s, event, k) && event.action.ok then (Reconciled, "")
    else if LosesTrack(s, event, k) then
      (OutcomeUnknown,
       if r.sender.Marking? then "DEADLINE_EXPIRED"
       else if r.sender.Resyncing? then "RECONCILIATION_FAILED"
       else if r.sender.Sent? && event.action.answer.ApiError? then event.action.answer.code
       else "OUTCOME_UNKNOWN")
    else if Crashes(s, event, k) then (Crashed, "WORKER_CRASHED")
    else if FailsWork(s, event, k) then
      (WorkerFailed, if event.action.result.Broken? then event.action.result.code else "INVALID_PROPOSAL")
    else if FailsCleanup(s, event, k) then (WorkerFailed, "CLEANUP_FAILED")
    else (r.state, r.code)
  }

  predicate Follows(s: System, event: Event, k: nat)
    requires k < |s.records|
  {
    var r := Next(s, event).records;
    k < |r| && (r[k].state, r[k].code) == Caused(s, event, k)
  }

  /** Only some causes are possible with each kind of event. */
  lemma WorkerCauses(s: System, event: Event, k: nat)
    requires k < |s.records| && event.On? && event.request == k && event.action.WorkerRuns?
    ensures !Cancels(s, event, k) && !Supersedes(s, event, k) && !MaySubmit(s, event, k) && !MayRetry(s, event, k)
    ensures !MayReconcile(s, event, k) && !Sends(s, event, k) && !LosesTrack(s, event, k) && !Admits(s, event)
    ensures forall status :: !Answers(s, event, k, status)
  {
  }

  lemma SenderCauses(s: System, event: Event, k: nat)
    requires k < |s.records| && Sends(s, event, k)
    ensures !Cancels(s, event, k) && !Supersedes(s, event, k) && !MaySubmit(s, event, k) && !MayRetry(s, event, k)
    ensures !MayReconcile(s, event, k) && !Looks(s, event, k) && !Proposes(s, event, k) && !Crashes(s, event, k)
    ensures !FailsWork(s, event, k) && !FailsCleanup(s, event, k)
  {
  }

  lemma CallCauses(s: System, event: Event, k: nat)
    requires k < |s.records| && (event.On? ==> event.request == k && !event.action.WorkerRuns? && !event.action.SenderRuns?)
    ensures !Proposes(s, event, k) && !Crashes(s, event, k) && !FailsWork(s, event, k) && !FailsCleanup(s, event, k)
    ensures !Sends(s, event, k) && !LosesTrack(s, event, k) && forall status :: !Answers(s, event, k, status)
    ensures !event.On? ==> !MaySubmit(s, event, k) && !MayRetry(s, event, k) && !MayReconcile(s, event, k)
  {
  }

  lemma WorkerFollows(s: System, k: nat, result: WorkerResult, expired: bool, cleaned: bool)
    requires Keeps(s) && k < |s.records|
    ensures Follows(s, On(k, WorkerRuns(result, expired, cleaned)), k)
  {
    hide Keeps, Follows;
    match s.records[k].worker
    case Starting => BeginFollows(s, k, result, expired, cleaned);
    case Working => WatchFollows(s, k, result, expired, cleaned);
    case Exited =>
      if result == Proposal(true) {
        AcceptFollows(s, k, result, expired, cleaned);
      } else {
        ExitFollows(s, k, result, expired, cleaned);
      }
    case _ => EndFollows(s, k, result, expired, cleaned);
  }

  lemma BeginFollows(s: System, k: nat, result: WorkerResult, expired: bool, cleaned: bool)
    requires Keeps(s) && k < |s.records| && s.records[k].worker.Starting?
    ensures Follows(s, On(k, WorkerRuns(result, expired, cleaned)), k)
  {
    Standing(s, k);
    KeepsActive(s);
    WorkerCauses(s, On(k, WorkerRuns(result, expired, cleaned)), k);
    hide Keeps, RecordSound, Cancels, Supersedes, MaySubmit, MayRetry, MayReconcile, Sends, LosesTrack, Answers, Admits, Concluded, Failed;
  }

  lemma WatchFollows(s: System, k: nat, result: WorkerResult, expired: bool, cleaned: bool)
    requires Keeps(s) && k < |s.records| && s.records[k].worker.Working?
    ensures Follows(s, On(k, WorkerRuns(result, expired, cleaned)), k)
  {
    Standing(s, k);
    KeepsActive(s);
    WorkerCauses(s, On(k, WorkerRuns(result, expired, cleaned)), k);
    hide Keeps, RecordSound, Cancels, Supersedes, MaySubmit, MayRetry, MayReconcile, Sends, LosesTrack, Answers, Admits, Concluded;
  }

  lemma AcceptFollows(s: System, k: nat, result: WorkerResult, expired: bool, cleaned: bool)
    requires Keeps(s) && k < |s.records| && s.records[k].worker.Exited? && result == Proposal(true)
    ensures Follows(s, On(k, WorkerRuns(result, expired, cleaned)), k)
  {
    Standing(s, k);
    KeepsActive(s);
    WorkerCauses(s, On(k, WorkerRuns(result, expired, cleaned)), k);
    hide Keeps, RecordSound, Cancels, Supersedes, MaySubmit, MayRetry, MayReconcile, Sends, LosesTrack, Answers, Admits, Failed, Crashes, FailsCleanup;
  }

  lemma ExitFollows(s: System, k: nat, result: WorkerResult, expired: bool, cleaned: bool)
    requires Keeps(s) && k < |s.records| && s.records[k].worker.Exited? && result != Proposal(true)
    ensures Follows(s, On(k, WorkerRuns(result, expired, cleaned)), k)
  {
    Standing(s, k);
    KeepsActive(s);
    WorkerCauses(s, On(k, WorkerRuns(result, expired, cleaned)), k);
    hide Keeps, RecordSound, Cancels, Supersedes, MaySubmit, MayRetry, MayReconcile, Sends, LosesTrack, Answers, Admits, Accepted, Expired;
  }

  lemma EndFollows(s: System, k: nat, result: WorkerResult, expired: bool, cleaned: bool)
    requires Keeps(s) && k < |s.records| && (s.records[k].worker.Ending? || s.records[k].worker.Reaped?)
    ensures Follows(s, On(k, WorkerRuns(result, expired, cleaned)), k)
  {
    Standing(s, k);
    KeepsActive(s);
    WorkerCauses(s, On(k, WorkerRuns(result, expired, cleaned)), k);
    hide Keeps, RecordSound, Cancels, Supersedes, MaySubmit, MayRetry, MayReconcile, Sends, LosesTrack, Answers, Admits, Concluded, Expired;
  }

  lemma SenderFollows(s: System, k: nat, ok: bool, answer: SendResult)
    requires Keeps(s) && k < |s.records|
    ensures Follows(s, On(k, SenderRuns(ok, answer)), k)
  {
    hide Keeps, Follows;
    match s.records[k].sender
    case Sent => AnswerFollows(s, k, ok, answer);
    case Resyncing => AnswerFollows(s, k, ok, answer);
    case _ => PreparationFollows(s, k, ok, answer);
  }

  lemma AnswerFollows(s: System, k: nat, ok: bool, answer: SendResult)
    requires Keeps(s) && k < |s.records| && (s.records[k].sender.Sent? || s.records[k].sender.Resyncing?)
    ensures Follows(s, On(k, SenderRuns(ok, answer)), k)
  {
    Standing(s, k);
    SenderCauses(s, On(k, SenderRuns(ok, answer)), k);
    hide Keeps, Cancels, Supersedes, MaySubmit, MayRetry, MayReconcile, Looks, Proposes, Crashes, FailsWork, FailsCleanup;
  }

  lemma PreparationFollows(s: System, k: nat, ok: bool, answer: SendResult)
    requires Keeps(s) && k < |s.records| && !s.records[k].sender.Sent? && !s.records[k].sender.Resyncing?
    ensures Follows(s, On(k, SenderRuns(ok, answer)), k)
  {
    Standing(s, k);
    SenderCauses(s, On(k, SenderRuns(ok, answer)), k);
    hide Keeps, Cancels, Supersedes, MaySubmit, MayRetry, MayReconcile, Looks, Proposes, Crashes, FailsWork, FailsCleanup;
  }

  lemma CallFollows(s: System, k: nat, action: Action)
    requires Keeps(s) && k < |s.records| && !action.WorkerRuns? && !action.SenderRuns?
    ensures Follows(s, On(k, action), k)
  {
    hide Keeps, Follows;
    match action
    case Cancel => LookFollows(s, k, action);
    case Inspect => LookFollows(s, k, action);
    case Submit(_) => SubmitFollows(s, k, action);
    case _ => AgainFollows(s, k, action);
  }

  lemma LookFollows(s: System, k: nat, action: Action)
    requires Keeps(s) && k < |s.records| && (action.Cancel? || action.Inspect?)
    ensures Follows(s, On(k, action), k)
  {
    Standing(s, k);
    KeepsActive(s);
    CallCauses(s, On(k, action), k);
    hide Keeps, RecordSound, Proposes, Crashes, FailsWork, FailsCleanup, Sends, LosesTrack, Answers;
  }

  lemma SubmitFollows(s: System, k: nat, action: Action)
    requires Keeps(s) && k < |s.records| && action.Submit?
    ensures Follows(s, On(k, action), k)
  {
    Standing(s, k);
    KeepsActive(s);
    CallCauses(s, On(k, action), k);
    hide Keeps, RecordSound, Proposes, Crashes, FailsWork, FailsCleanup, Sends, LosesTrack, Answers;
  }

  lemma AgainFollows(s: System, k: nat, action: Action)
    requires Keeps(s) && k < |s.records| && (action.Retry? || action.Reconcile?)
    ensures Follows(s, On(k, action), k)
  {
    Standing(s, k);
    KeepsActive(s);
    CallCauses(s, On(k, action), k);
    hide Keeps, RecordSound, Proposes, Crashes, FailsWork, FailsCleanup, Sends, LosesTrack, Answers;
  }

  lemma OtherFollows(s: System, j: nat, action: Action, k: nat)
    requires Keeps(s) && k < |s.records| && j != k
    ensures Follows(s, On(j, action), k)
  {
    hide Keeps, Act, RecordSound;
    if j < |s.records| {
      ActChanges(s, j, action);
    }
  }

  lemma ExpiredAt(s: System, j: nat, k: nat)
    requires j < |s.records| && k < |s.records|
    ensures |Expired(s, j).records| == |s.records|
    ensures Expired(s, j).records[k] ==
      if j == k && PreSubmit(s.records[k].state) && Late(s, k) then s.records[k].(state := TimedOut, code := "DEADLINE_EXPIRED") else s.records[k]
  {
  }

  lemma EndedAt(s: System, j: nat, x: State, code: string, k: nat)
    requires j < |s.records| && k < |s.records|
    ensures |Ended(s, j, x, code).records| == |s.records|
    ensures Ended(s, j, x, code).records[k] == if j == k then s.records[k].(state := x, code := code) else s.records[k]
  {
  }

  /** Appending a request leaves the others alone. */
  lemma AddedOthers(s: System, timeout: nat, spawns: bool)
    ensures |Added(s, timeout, spawns).records| == |s.records| + 1
    ensures forall k :: 0 <= k < |s.records| ==> Added(s, timeout, spawns).records[k] == s.records[k]
  {
  }

  /** What a start does to the requests already there. */
  function StartedOn(s: System, event: Event, k: nat): Request
    requires k < |s.records| && event.Start?
  {
    var r := s.records[k];
    if !Admits(s, event) || !PreSubmit(r.state) then r
    else if Late(s, k) then r.(state := TimedOut, code := "DEADLINE_EXPIRED")
    else if event.supersede then r.(state := Superseded, code := "SUPERSEDED")
    else r
  }

  /** The requests before the new one is added. */
  lemma ClearedOn(s: System, event: Event, k: nat)
    requires Keeps(s) && k < |s.records| && event.Start? && Admits(s, event)
    ensures
      var t := if s.active.Some? && s.active.value < |s.records| then Expired(s, s.active.value) else s;
      var waiting := s.active.Some? && s.active.value < |t.records| && PreSubmit(t.records[s.active.value].state);
      var u := if event.supersede then t.(generation := t.generation + 1) else t;
      var v := if event.supersede && waiting then Ended(u, s.active.value, Superseded, "SUPERSEDED") else u;
      && |t.records| == |v.records| == |s.records| && v.records[k] == StartedOn(s, event, k)
      && (waiting && !event.supersede ==> t.records[k] == StartedOn(s, event, k))
  {
    Standing(s, k);
    KeepsActive(s);
    hide Keeps, RecordSound, Expired, Ended, Admits;
    if s.active.Some? {
      var at := s.active.value;
      var t := Expired(s, at);
      ExpiredAt(s, at, k);
      ExpiredAt(s, at, at);
      var u := if event.supersede then t.(generation := t.generation + 1) else t;
      EndedAt(u, at, Superseded, "SUPERSEDED", k);
    }
  }

  lemma StartChanges(s: System, arguments: Arguments, supersede: bool, spawns: bool, k: nat)
    requires Keeps(s) && k < |s.records|
    ensures
      var event := Start(arguments, supersede, spawns);
      var r := StartCall(s, arguments, supersede, spawns).0.records;
      k < |r| && r[k] == StartedOn(s, event, k)
  {
    hide Keeps, Added, Expired, Ended, StartedOn, PreSubmit, Terminal;
    var event := Start(arguments, supersede, spawns);
    if Admits(s, event) {
      ClearedOn(s, event, k);
      var t := if s.active.Some? && s.active.value < |s.records| then Expired(s, s.active.value) else s;
      var waiting := s.active.Some? && s.active.value < |t.records| && PreSubmit(t.records[s.active.value].state);
      var u := if supersede then t.(generation := t.generation + 1) else t;
      AddedOthers(if supersede && waiting then Ended(u, s.active.value, Superseded, "SUPERSEDED") else u, arguments.timeout, spawns);
    } else {
      NotAdmitted(s, event, k);
    }
  }

  lemma NotAdmitted(s: System, event: Event, k: nat)
    requires k < |s.records| && event.Start? && !Admits(s, event)
    ensures StartedOn(s, event, k) == s.records[k] && StartCall(s, event.arguments, event.supersede, event.spawns).0 == s
  {
  }

  lemma StartFollows(s: System, arguments: Arguments, supersede: bool, spawns: bool, k: nat)
    requires Keeps(s) && k < |s.records|
    ensures Follows(s, Start(arguments, supersede, spawns), k)
  {
    var event := Start(arguments, supersede, spawns);
    StartChanges(s, arguments, supersede, spawns, k);
    CallCauses(s, event, k);
    Standing(s, k);
    SubmitStates(s.records[k]);
    hide Keeps, RecordSound, Proposes, Crashes, FailsWork, FailsCleanup, Sends, LosesTrack, Answers, MaySubmit, MayRetry, MayReconcile,
         StartCall, Admits;
  }

  lemma SubmitStates(r: Request)
    requires RecordSound(r)
    ensures PreSubmit(r.state) ==> r.sender.NoSender?
  {
  }

  lemma RestartFollows(s: System, k: nat)
    requires Keeps(s) && k < |s.records|
    ensures Follows(s, Restart, k)
  {
    Standing(s, k);
    KeepsActive(s);
    CallCauses(s, Restart, k);
    hide Keeps, RecordSound, Proposes, Crashes, FailsWork, FailsCleanup, Sends, LosesTrack, Answers, MaySubmit, MayRetry, MayReconcile;
  }

  lemma {:induction false} CancelAllStates(s: System, n: nat, k: nat)
    requires n <= |s.records| && k < |s.records|
    ensures
      var r := CancelAll(s, n).records;
      && |r| == |s.records|
      && r[k] == if k < n && PreSubmit(s.records[k].state) then s.records[k].(state := Cancelled, code := "SUPERVISOR_CLOSED") else s.records[k]
    decreases n
  {
    if n > 0 {
      CancelAllStates(s, n - 1, k);
      CancelAllStates(s, n - 1, n - 1);
    }
  }

  lemma CloseFollows(s: System, k: nat)
    requires Keeps(s) && k < |s.records|
    ensures Follows(s, Close, k)
  {
    Standing(s, k);
    CancelAllStates(s.(closed := true), |s.records|, k);
    hide Keeps, CancelAll;
  }

  /** Whatever happens, the state and the error code of every request change exactly by their causes. */
  lemma StateCaused(s: System, event: Event, k: nat)
    requires Keeps(s) && k < |s.records|
    ensures
      var r := Next(s, event).records;
      k < |r| && (r[k].state, r[k].code) == Caused(s, event, k)
  {
    assert Follows(s, event, k) by {
      hide Keeps, Follows;
      match event
      case Start(arguments, supersede, spawns) => StartFollows(s, arguments, supersede, spawns, k);
      case Restart => RestartFollows(s, k);
      case Close => CloseFollows(s, k);
      case Wait(ms) => WaitFollows(s, ms, k);
      case On(j, action) =>
        if j != k {
          OtherFollows(s, j, action, k);
        } else if action.WorkerRuns? {
          WorkerFollows(s, k, action.result, action.expired, action.cleaned);
        } else if action.SenderRuns? {
          SenderFollows(s, k, action.ok, action.answer);
        } else {
          CallFollows(s, k, action);
        }
    }
  }

  lemma WaitFollows(s: System, ms: nat, k: nat)
    requires k < |s.records|
    ensures Follows(s, Wait(ms), k)
  {
  }

  // Answers over runs

  /** A receipt comes from the answer of the host, and from nothing else. */
  lemma ReceiptCaused(s: System, event: Event, k: nat)
    requires Keeps(s) && k < |s.records|
    ensures
      var r := Next(s, event).records;
      && k < |r|
      && (forall status :: Answers(s, event, k, status) ==> r[k].receipt == Some(status))
      && ((forall status :: !Answers(s, event, k, status)) ==> r[k].receipt == s.records[k].receipt)
  {
    hide Keeps;
    match event
    case Start(arguments, supersede, spawns) => StartChanges(s, arguments, supersede, spawns, k);
    case Restart =>
      if s.active.Some? && s.active.value < |s.records| {
        ExpiredAt(s.(generation := s.generation + 1), s.active.value, k);
      }
    case Close => CancelAllStates(s.(closed := true), |s.records|, k);
    case Wait(ms) =>
    case On(j, action) => ActReceipt(s, j, action, k);
  }

  predicate ReceiptFollows(s: System, event: Event, k: nat)
    requires k < |s.records|
  {
    var r := Next(s, event).records;
    && k < |r|
    && (forall status :: Answers(s, event, k, status) ==> r[k].receipt == Some(status))
    && ((forall status :: !Answers(s, event, k, status)) ==> r[k].receipt == s.records[k].receipt)
  }

  lemma ActReceipt(s: System, j: nat, action: Action, k: nat)
    requires Keeps(s) && k < |s.records|
    ensures ReceiptFollows(s, On(j, action), k)
  {
    hide Keeps, RecordSound, ReceiptFollows;
    if j != k {
      StrangerReceipt(s, j, action, k);
    } else if action.SenderRuns? {
      SenderReceipt(s, k, action.ok, action.answer);
    } else {
      CallReceipt(s, k, action);
    }
  }

  lemma StrangerReceipt(s: System, j: nat, action: Action, k: nat)
    requires Keeps(s) && k < |s.records| && j != k
    ensures ReceiptFollows(s, On(j, action), k)
  {
    hide Keeps, RecordSound, Act;
    if j < |s.records| {
      ActChanges(s, j, action);
    }
  }

  lemma SenderReceipt(s: System, k: nat, ok: bool, answer: SendResult)
    requires k < |s.records|
    ensures ReceiptFollows(s, On(k, SenderRuns(ok, answer)), k)
  {
    if s.records[k].sender.Sent? && answer.Answered? {
      AnsweredReceipt(s, k, ok, answer);
    } else {
      hide SenderStep;
      UnansweredReceipt(s, k, ok, answer);
    }
  }

  lemma AnsweredReceipt(s: System, k: nat, ok: bool, answer: SendResult)
    requires k < |s.records| && s.records[k].sender.Sent? && answer.Answered?
    ensures ReceiptFollows(s, On(k, SenderRuns(ok, answer)), k)
  {
    assert Answers(s, On(k, SenderRuns(ok, answer)), k, answer.status);
  }

  lemma UnansweredReceipt(s: System, k: nat, ok: bool, answer: SendResult)
    requires k < |s.records| && !(s.records[k].sender.Sent? && answer.Answered?)
    ensures SameReceipt(s, SenderStep(s, k, ok, answer), k)
  {
    hide SenderStep, SameReceipt;
    var sender := s.records[k].sender;
    if sender.Sent? || sender.Resyncing? {
      EndReceipt(s, k, ok, answer);
    } else if sender.Marking? || sender.Sending? || sender.NoSender? {
      MarkReceipt(s, k, ok, answer);
    } else {
      FirstReceipt(s, k, ok, answer);
    }
  }

  lemma FirstReceipt(s: System, k: nat, ok: bool, answer: SendResult)
    requires k < |s.records| && (s.records[k].sender.Checking? || s.records[k].sender.Preparing? || s.records[k].sender.Prepared?)
    ensures SameReceipt(s, SenderStep(s, k, ok, answer), k)
  {
  }

  lemma MarkReceipt(s: System, k: nat, ok: bool, answer: SendResult)
    requires k < |s.records| && (s.records[k].sender.Marking? || s.records[k].sender.Sending? || s.records[k].sender.NoSender?)
    ensures SameReceipt(s, SenderStep(s, k, ok, answer), k)
  {
  }

  lemma EndReceipt(s: System, k: nat, ok: bool, answer: SendResult)
    requires k < |s.records| && ((s.records[k].sender.Sent? && !answer.Answered?) || s.records[k].sender.Resyncing?)
    ensures SameReceipt(s, SenderStep(s, k, ok, answer), k)
  {
  }

  lemma CallReceipt(s: System, k: nat, action: Action)
    requires k < |s.records| && !action.SenderRuns?
    ensures ReceiptFollows(s, On(k, action), k)
  {
    hide Act;
    OthersReceipt(s, k, action);
  }

  lemma OthersReceipt(s: System, k: nat, action: Action)
    requires k < |s.records| && !action.SenderRuns?
    ensures |Act(s, k, action).records| == |s.records| && Act(s, k, action).records[k].receipt == s.records[k].receipt
  {
    if action.WorkerRuns? {
      WorkerReceipt(s, k, action.result, action.expired, action.cleaned);
    }
  }

  predicate SameReceipt(s: System, t: System, k: nat)
    requires k < |s.records|
  {
    |t.records| == |s.records| && t.records[k].receipt == s.records[k].receipt
  }

  lemma EarlyReceipt(s: System, k: nat, x: State, code: string)
    requires k < |s.records|
    ensures SameReceipt(s, Expired(s, k), k) && SameReceipt(s, Failed(s, k, x, code), k)
  {
  }

  lemma AcceptedReceipt(s: System, k: nat)
    requires k < |s.records|
    ensures SameReceipt(s, Accepted(s, k), k)
  {
    hide Expired;
    EarlyReceipt(s, k, WorkerFailed, "");
  }

  lemma ConcludedReceipt(s: System, k: nat, result: WorkerResult, expired: bool)
    requires k < |s.records|
    ensures SameReceipt(s, Concluded(s, k, result, expired), k)
  {
    hide Accepted, Failed, Expired;
    AcceptedReceipt(s, k);
    EarlyReceipt(s, k, WorkerFailed, if result.Broken? then result.code else "INVALID_PROPOSAL");
    EarlyReceipt(s, k, Crashed, "WORKER_CRASHED");
  }

  lemma WorkerReceipt(s: System, k: nat, result: WorkerResult, expired: bool, cleaned: bool)
    requires k < |s.records|
    ensures
      var t := WorkerStep(s, k, result, expired, cleaned);
      |t.records| == |s.records| && t.records[k].receipt == s.records[k].receipt
  {
    hide Concluded, Failed, Expired;
    ConcludedReceipt(s, k, result, expired);
    EarlyReceipt(s, k, WorkerFailed, if result.Broken? then result.code else "");
  }

  /** Some event before the `n`-th was the host answering request `k` with this status. */
  ghost predicate WasAnswered(states: seq<System>, events: seq<Event>, k: nat, status: ReceiptStatus, n: nat)
    requires |states| == |events| + 1 && n <= |events|
  {
    exists m :: 0 <= m < n && k < |states[m].records| && Answers(states[m], events[m], k, status)
  }

  /** Over any run a request has a receipt if and only if the host answered its submission, and it is that answer; the
      request is committed or rejected as the answer said. */
  lemma {:induction false} AnswerExact(states: seq<System>, events: seq<Event>, n: nat, k: nat, status: ReceiptStatus)
    requires Run(states, events) && n <= |events| && k < |states[n].records|
    ensures |states| == |events| + 1
    ensures
      var r := states[n].records[k];
      && (r.receipt == Some(status) <==> WasAnswered(states, events, k, status, n))
      && (r.state == Committed <==> WasAnswered(states, events, k, ReceiptCommitted, n))
      && (r.state == Rejected <==> WasAnswered(states, events, k, ReceiptRejected, n))
    decreases n
  {
    RunSize(states, events);
    RunKeeps(states, events, n);
    Standing(states[n], k);
    ReceiptStates(states[n].records[k]);
    ReceiptExact(states, events, n, k, ReceiptCommitted);
    ReceiptExact(states, events, n, k, ReceiptRejected);
  }

  lemma ReceiptStates(r: Request)
    requires RecordSound(r)
    ensures r.state == Committed <==> r.receipt == Some(ReceiptCommitted)
    ensures r.state == Rejected <==> r.receipt == Some(ReceiptRejected)
    ensures r.sender.Sent? ==> r.receipt == None
  {
  }

  lemma {:induction false} ReceiptExact(states: seq<System>, events: seq<Event>, n: nat, k: nat, status: ReceiptStatus)
    requires Run(states, events) && n <= |events| && k < |states[n].records|
    ensures |states| == |events| + 1
    ensures states[n].records[k].receipt == Some(status) <==> WasAnswered(states, events, k, status, n)
    decreases n
  {
    hide Next, Keeps, Answers, RecordSound;
    RunSize(states, events);
    if n > 0 {
      var (s, event) := (states[n - 1], events[n - 1]);
      RunKeeps(states, events, n - 1);
      if k < |s.records| {
        ReceiptExact(states, events, n - 1, k, status);
        ReceiptCaused(s, event, k);
        Standing(s, k);
        ReceiptStates(s.records[k]);
        OneAnswer(s, event, k);
        if WasAnswered(states, events, k, status, n) && !WasAnswered(states, events, k, status, n - 1) {
          assert Answers(s, event, k, status);
        }
      } else {
        NewRequest(s, event);
        NoEarlierAnswer(states, events, n, k);
      }
    } else {
      FirstEmpty(states, events);
    }
  }

  lemma FirstEmpty(states: seq<System>, events: seq<Event>)
    requires Run(states, events)
    ensures states[0].records == []
  {
  }

  lemma OneAnswer(s: System, event: Event, k: nat)
    requires k < |s.records|
    ensures forall a, b :: Answers(s, event, k, a) && Answers(s, event, k, b) ==> a == b
    ensures forall a :: Answers(s, event, k, a) ==> s.records[k].sender.Sent?
  {
  }

  lemma {:induction false} NoEarlierAnswer(states: seq<System>, events: seq<Event>, n: nat, k: nat)
    requires Run(states, events) && 0 < n <= |events| && k >= |states[n - 1].records|
    ensures |states| == |events| + 1 && forall m :: 0 <= m < n ==> k >= |states[m].records|
    decreases n
  {
    hide Next, Keeps;
    RunSize(states, events);
    if n > 1 {
      RunKeeps(states, events, n - 2);
      NewRequest(states[n - 2], events[n - 2]);
      NoEarlierAnswer(states, events, n - 1, k);
    }
  }

  // New requests

  /** A request in the way of a start without supersession. */
  predicate Waiting(s: System) {
    s.active.Some? && s.active.value < |s.records| && PreSubmit(s.records[s.active.value].state) && !Late(s, s.active.value)
  }

  predicate Grows(s: System, event: Event) {
    Admits(s, event) && (event.supersede || !Waiting(s))
  }

  /** When a new request is made, and what it starts with; what changes the generation and closes the supervisor. */
  lemma NewRequest(s: System, event: Event)
    requires Keeps(s)
    ensures
      var (t, n) := (Next(s, event), |s.records|);
      && |t.records| == n + (if Grows(s, event) then 1 else 0)
      && (Grows(s, event) ==>
            && t.records[n].state == (if event.spawns then Running else WorkerFailed)
            && t.records[n].generation == t.generation && t.records[n].deadline == s.now + event.arguments.timeout
            && t.records[n].receipt == None && t.records[n].worker == (if event.spawns then Starting else Reaped(true)))
      && t.generation == s.generation + (if (event.Restart? && !s.closed) || (Admits(s, event) && event.supersede) then 1 else 0)
      && t.closed == (s.closed || event.Close?)
      && t.now == s.now + (if event.Wait? then event.ms else 0)
  {
    hide Keeps, RecordSound;
    match event
    case Start(arguments, supersede, spawns) => StartGrows(s, arguments, supersede, spawns);
    case Restart => KeepsActive(s);
    case Close => CancelAllFrame(s.(closed := true), |s.records|);
    case Wait(ms) =>
    case On(j, action) =>
      if j < |s.records| {
        hide Act;
        ActChanges(s, j, action);
        ActNow(s, j, action);
      }
  }

  lemma ActNow(s: System, j: nat, action: Action)
    requires j < |s.records|
    ensures Act(s, j, action).now == s.now
  {
  }

  lemma {:induction false} CancelAllFrame(s: System, n: nat)
    requires n <= |s.records|
    ensures
      var t := CancelAll(s, n);
      |t.records| == |s.records| && t.generation == s.generation && t.closed == s.closed && t.now == s.now && t.workers == s.workers
    decreases n
  {
    if n > 0 {
      CancelAllFrame(s, n - 1);
    }
  }

  lemma StartGrows(s: System, arguments: Arguments, supersede: bool, spawns: bool)
    requires Keeps(s)
    ensures
      var event := Start(arguments, supersede, spawns);
      var (t, n) := (Next(s, event), |s.records|);
      && |t.records| == n + (if Grows(s, event) then 1 else 0)
      && (Grows(s, event) ==>
            && t.records[n].state == (if event.spawns then Running else WorkerFailed)
            && t.records[n].generation == t.generation && t.records[n].deadline == s.now + event.arguments.timeout
            && t.records[n].receipt == None && t.records[n].worker == (if event.spawns then Starting else Reaped(true)))
      && t.generation == s.generation + (if Admits(s, event) && supersede then 1 else 0)
      && t.closed == s.closed && t.now == s.now
      && t.workers == s.workers + (if Grows(s, event) && spawns then 1 else 0)
  {
    hide Keeps, Expired, Ended, Added, Waiting, PreSubmit, Late;
    var event := Start(arguments, supersede, spawns);
    ClearedFields(s, supersede);
    if Admits(s, event) {
      var t := if s.active.Some? && s.active.value < |s.records| then Expired(s, s.active.value) else s;
      var waiting := s.active.Some? && s.active.value < |t.records| && PreSubmit(t.records[s.active.value].state);
      var u := if supersede then t.(generation := t.generation + 1) else t;
      AddedLast(if supersede && waiting then Ended(u, s.active.value, Superseded, "SUPERSEDED") else u, arguments.timeout, spawns);
    }
  }

  /** Only the requests change while the way is cleared for a new one. */
  lemma ClearedFields(s: System, supersede: bool)
    requires Keeps(s)
    ensures
      var t := if s.active.Some? && s.active.value < |s.records| then Expired(s, s.active.value) else s;
      var waiting := s.active.Some? && s.active.value < |t.records| && PreSubmit(t.records[s.active.value].state);
      var u := if supersede then t.(generation := t.generation + 1) else t;
      var v := if supersede && waiting then Ended(u, s.active.value, Superseded, "SUPERSEDED") else u;
      && waiting == Waiting(s) && |t.records| == |v.records| == |s.records|
      && t.generation == s.generation && v.generation == s.generation + (if supersede then 1 else 0)
      && t.closed == v.closed == s.closed && t.now == v.now == s.now && t.workers == v.workers == s.workers
  {
    KeepsActive(s);
    hide Keeps, Expired, Ended, PreSubmit, Late, Terminal;
    if s.active.Some? {
      ExpiredFields(s, s.active.value);
      ExpiredWaits(s);
      var t := Expired(s, s.active.value);
      EndedFields(if supersede then t.(generation := t.generation + 1) else t, s.active.value, Superseded, "SUPERSEDED");
    }
  }

  lemma ExpiredWaits(s: System)
    requires s.active.Some? && s.active.value < |s.records|
    ensures |Expired(s, s.active.value).records| == |s.records|
    ensures Waiting(s) == PreSubmit(Expired(s, s.active.value).records[s.active.value].state)
  {
  }

  lemma AddedLast(s: System, timeout: nat, spawns: bool)
    ensures
      var (t, n) := (Added(s, timeout, spawns), |s.records|);
      && |t.records| == n + 1 && t.records[n].state == (if spawns then Running else WorkerFailed)
      && t.records[n].generation == t.generation == s.generation && t.records[n].deadline == s.now + timeout
      && t.records[n].receipt == None && t.records[n].worker == (if spawns then Starting else Reaped(true))
      && t.closed == s.closed && t.now == s.now && t.workers == s.workers + (if spawns then 1 else 0)
  {
  }

  // What the calls answer

  /** The answers of the calls say exactly what happened. */
  lemma AnswersTell(s: System, k: nat, spawns: bool)
    requires Keeps(s) && k < |s.records|
    ensures CancelCall(s, k).1 ==
      if Cancels(s, On(k, Cancel), k) then "cancelled" else if Busy(s.records[k].state) then "too_late" else "terminal"
    ensures SubmitCall(s, k, spawns).1 ==
      if MaySubmit(s, On(k, Submit(spawns)), k) || Caused(s, On(k, Submit(spawns)), k).0 == TimedOut then Done else PROTOCOL_ERROR
    ensures RetryCall(s, k, spawns).1 == if MayRetry(s, On(k, Retry(spawns)), k) then Done else PROTOCOL_ERROR
    ensures ReconcileCall(s, k, spawns).1 == if MayReconcile(s, On(k, Reconcile(spawns)), k) then Done else PROTOCOL_ERROR
  {
    Standing(s, k);
    KeepsActive(s);
    CallCauses(s, On(k, Submit(spawns)), k);
    hide Keeps, Proposes, Crashes, FailsWork, FailsCleanup, Sends, LosesTrack, Answers;
  }

  lemma StartTells(s: System, arguments: Arguments, supersede: bool, spawns: bool)
    requires Keeps(s)
    ensures StartCall(s, arguments, supersede, spawns).1 ==
      if Grows(s, Start(arguments, supersede, spawns)) then Done
      else if ValidArguments(arguments) && !s.closed && s.blocked.Some? then OUTCOME_UNKNOWN
      else PROTOCOL_ERROR
    ensures RestartCall(s).1 == if s.closed then PROTOCOL_ERROR else Done
  {
    hide Keeps, Expired, Ended, Added, Waiting, PreSubmit, Late;
    ClearedFields(s, supersede);
  }

  // Workers

  function Occupied(worker: Worker): nat {
    if worker == Reaped(true) then 0 else 1
  }

  /** How many workers have not been cleaned up. */
  function Alive(records: seq<Request>): nat {
    if records == [] then 0 else Alive(records[..|records| - 1]) + Occupied(records[|records| - 1].worker)
  }

  lemma {:induction false} AliveChanged(a: seq<Request>, b: seq<Request>, k: nat)
    requires k < |a| == |b| && forall j :: 0 <= j < |a| && j != k ==> a[j].worker == b[j].worker
    ensures Alive(b) == Alive(a) - Occupied(a[k].worker) + Occupied(b[k].worker)
  {
    if k < |a| - 1 {
      AliveChanged(a[..|a| - 1], b[..|b| - 1], k);
    } else {
      AliveSame(a[..|a| - 1], b[..|b| - 1]);
    }
  }

  lemma {:induction false} AliveSame(a: seq<Request>, b: seq<Request>)
    requires |a| == |b| && forall j :: 0 <= j < |a| ==> a[j].worker == b[j].worker
    ensures Alive(b) == Alive(a)
  {
    if a != [] {
      AliveSame(a[..|a| - 1], b[..|b| - 1]);
    }
  }

  lemma {:induction false} AliveMore(a: seq<Request>, r: Request)
    ensures Alive(a + [r]) == Alive(a) + Occupied(r.worker)
  {
    assert (a + [r])[..|a|] == a;
  }

  /** The phase of the worker of a request after the event. */
  function PhaseAfter(s: System, event: Event, k: nat): Worker
    requires k < |s.records|
  {
    var worker := s.records[k].worker;
    if !Worked(s, event, k, worker) then worker
    else
      match worker
      case Starting => if s.closed || Late(s, k) then Ending else Working
      case Working => if event.action.result.Broken? then Ending else Exited
      case Exited => Ending
      case Ending => Reaped(event.action.cleaned)
      case Reaped(_) => worker
  }

  /** A worker moves on only by its own steps; a proposal that comes too late is counted, and so is every end. */
  lemma WorkerCaused(s: System, event: Event, k: nat)
    requires Keeps(s) && k < |s.records|
    ensures
      var (a, t) := (s.records[k], Next(s, event));
      && k < |t.records| && t.records[k].worker == PhaseAfter(s, event, k)
      && t.records[k].late ==
           a.late + (if Worked(s, event, k, Exited) && event.action.result == Proposal(true) && !Proposes(s, event, k) then 1 else 0)
  {
    hide Keeps;
    match event
    case Start(arguments, supersede, spawns) => StartChanges(s, arguments, supersede, spawns, k);
    case Restart =>
      if s.active.Some? && s.active.value < |s.records| {
        ExpiredAt(s.(generation := s.generation + 1), s.active.value, k);
      }
    case Close => CancelAllStates(s.(closed := true), |s.records|, k);
    case Wait(ms) =>
    case On(j, action) => ActPhase(s, j, action, k);
  }

  predicate PhaseFollows(s: System, event: Event, k: nat)
    requires k < |s.records|
  {
    var (a, t) := (s.records[k], Next(s, event));
    && k < |t.records| && t.records[k].worker == PhaseAfter(s, event, k)
    && t.records[k].late ==
         a.late + (if Worked(s, event, k, Exited) && event.action.result == Proposal(true) && !Proposes(s, event, k) then 1 else 0)
  }

  lemma ActPhase(s: System, j: nat, action: Action, k: nat)
    requires Keeps(s) && k < |s.records|
    ensures PhaseFollows(s, On(j, action), k)
  {
    hide Keeps, RecordSound, PhaseFollows;
    if j != k {
      StrangerPhase(s, j, action, k);
    } else if action.WorkerRuns? {
      match s.records[k].worker
      case Starting => BeginPhase(s, k, action.result, action.expired, action.cleaned);
      case Exited => ExitPhase(s, k, action.result, action.expired, action.cleaned);
      case Working => WatchPhase(s, k, action.result, action.expired, action.cleaned);
      case _ => EndPhase(s, k, action.result, action.expired, action.cleaned);
    } else if action.SenderRuns? {
      SenderPhase(s, k, action.ok, action.answer);
    } else {
      CallPhase(s, k, action);
    }
  }

  lemma StrangerPhase(s: System, j: nat, action: Action, k: nat)
    requires Keeps(s) && k < |s.records| && j != k
    ensures PhaseFollows(s, On(j, action), k)
  {
    hide Keeps, Act, RecordSound;
    if j < |s.records| {
      ActChanges(s, j, action);
    }
  }

  lemma SenderPhase(s: System, k: nat, ok: bool, answer: SendResult)
    requires k < |s.records|
    ensures PhaseFollows(s, On(k, SenderRuns(ok, answer)), k)
  {
    hide SenderStep;
    SenderKeepsWorker(s, k, ok, answer);
  }

  predicate KeepsWorker(s: System, t: System, k: nat)
    requires k < |s.records|
  {
    |t.records| == |s.records| && t.records[k].worker == s.records[k].worker && t.records[k].late == s.records[k].late
  }

  lemma SenderKeepsWorker(s: System, k: nat, ok: bool, answer: SendResult)
    requires k < |s.records|
    ensures KeepsWorker(s, SenderStep(s, k, ok, answer), k)
  {
    hide SenderStep, KeepsWorker;
    var sender := s.records[k].sender;
    if sender.Sent? || sender.Resyncing? {
      EndingSenderKeeps(s, k, ok, answer);
    } else if sender.Marking? || sender.Sending? || sender.NoSender? {
      MarkingSenderKeeps(s, k, ok, answer);
    } else {
      EarlySenderKeeps(s, k, ok, answer);
    }
  }

  lemma EarlySenderKeeps(s: System, k: nat, ok: bool, answer: SendResult)
    requires k < |s.records| && (s.records[k].sender.Checking? || s.records[k].sender.Preparing? || s.records[k].sender.Prepared?)
    ensures KeepsWorker(s, SenderStep(s, k, ok, answer), k)
  {
  }

  lemma MarkingSenderKeeps(s: System, k: nat, ok: bool, answer: SendResult)
    requires k < |s.records| && (s.records[k].sender.Marking? || s.records[k].sender.Sending? || s.records[k].sender.NoSender?)
    ensures KeepsWorker(s, SenderStep(s, k, ok, answer), k)
  {
  }

  lemma EndingSenderKeeps(s: System, k: nat, ok: bool, answer: SendResult)
    requires k < |s.records| && (s.records[k].sender.Sent? || s.records[k].sender.Resyncing?)
    ensures KeepsWorker(s, SenderStep(s, k, ok, answer), k)
  {
  }

  lemma CallPhase(s: System, k: nat, action: Action)
    requires k < |s.records| && !action.WorkerRuns? && !action.SenderRuns?
    ensures PhaseFollows(s, On(k, action), k)
  {
  }

  lemma BeginPhase(s: System, k: nat, result: WorkerResult, expired: bool, cleaned: bool)
    requires k < |s.records| && s.records[k].worker.Starting?
    ensures PhaseFollows(s, On(k, WorkerRuns(result, expired, cleaned)), k)
  {
    hide Concluded, Failed, Proposes;
  }

  lemma WatchPhase(s: System, k: nat, result: WorkerResult, expired: bool, cleaned: bool)
    requires k < |s.records| && s.records[k].worker.Working?
    ensures PhaseFollows(s, On(k, WorkerRuns(result, expired, cleaned)), k)
  {
    hide Concluded, Proposes, Late;
  }

  lemma EndPhase(s: System, k: nat, result: WorkerResult, expired: bool, cleaned: bool)
    requires k < |s.records| && (s.records[k].worker.Ending? || s.records[k].worker.Reaped?)
    ensures PhaseFollows(s, On(k, WorkerRuns(result, expired, cleaned)), k)
  {
    hide Concluded, Proposes, Late, Expired, Failed;
  }

  lemma ExitPhase(s: System, k: nat, result: WorkerResult, expired: bool, cleaned: bool)
    requires Keeps(s) && k < |s.records| && s.records[k].worker.Exited?
    ensures PhaseFollows(s, On(k, WorkerRuns(result, expired, cleaned)), k)
  {
    hide Keeps, PhaseFollows;
    if result == Proposal(true) {
      ProposalPhase(s, k, result, expired, cleaned);
    } else {
      FailurePhase(s, k, result, expired, cleaned);
    }
  }

  lemma ProposalPhase(s: System, k: nat, result: WorkerResult, expired: bool, cleaned: bool)
    requires Keeps(s) && k < |s.records| && s.records[k].worker.Exited? && result == Proposal(true)
    ensures PhaseFollows(s, On(k, WorkerRuns(result, expired, cleaned)), k)
  {
    Standing(s, k);
    KeepsActive(s);
    hide Keeps, RecordSound, Failed;
  }

  lemma FailurePhase(s: System, k: nat, result: WorkerResult, expired: bool, cleaned: bool)
    requires Keeps(s) && k < |s.records| && s.records[k].worker.Exited? && result != Proposal(true)
    ensures PhaseFollows(s, On(k, WorkerRuns(result, expired, cleaned)), k)
  {
    hide Keeps, RecordSound, Accepted, Expired;
  }

  /** The event takes a place from the workers, or gives one back. */
  predicate Cleans(s: System, event: Event) {
    && event.On? && event.request < |s.records| && Worked(s, event, event.request, Ending) && event.action.cleaned
  }

  lemma PlacesCaused(s: System, event: Event)
    requires Keeps(s)
    ensures
      var t := Next(s, event);
      t.workers == if Grows(s, event) && event.spawns then s.workers + 1
                   else if Cleans(s, event) && s.workers > 0 then s.workers - 1
                   else s.workers
  {
    hide Keeps;
    match event
    case Start(arguments, supersede, spawns) => StartGrows(s, arguments, supersede, spawns);
    case Restart => RestartPlaces(s);
    case Close => CancelAllFrame(s.(closed := true), |s.records|);
    case Wait(ms) =>
    case On(j, action) =>
      if j < |s.records| {
        ActPlaces(s, j, action);
      }
  }

  lemma RestartPlaces(s: System)
    requires Keeps(s)
    ensures RestartCall(s).0.workers == s.workers
  {
    KeepsActive(s);
    hide Keeps;
  }

  lemma ActPlaces(s: System, j: nat, action: Action)
    requires j < |s.records|
    ensures Act(s, j, action).workers == if Cleans(s, On(j, action)) && s.workers > 0 then s.workers - 1 else s.workers
  {
    if action.WorkerRuns? && s.records[j].worker.Exited? {
      ConcludedPlaces(s, j, action.result, action.expired);
    }
    hide Concluded;
  }

  lemma ConcludedPlaces(s: System, k: nat, result: WorkerResult, expired: bool)
    requires k < |s.records|
    ensures Concluded(s, k, result, expired).workers == s.workers && |Concluded(s, k, result, expired).records| == |s.records|
  {
  }

  predicate PlacesExact(s: System) {
    s.workers == Alive(s.records) && s.workers <= WORKER_LIMIT
  }

  /** How the places and the workers change together. */
  lemma PlacesFollow(s: System, event: Event)
    requires Keeps(s)
    ensures
      var (t, n) := (Next(s, event), |s.records|);
      && n <= |t.records| && (forall k :: 0 <= k < n ==> t.records[k].worker == PhaseAfter(s, event, k))
      && |t.records| == n + (if Grows(s, event) then 1 else 0)
      && (Grows(s, event) ==> event.Start? && t.records[n].worker == (if event.spawns then Starting else Reaped(true)) && s.workers < WORKER_LIMIT)
      && t.workers == if Grows(s, event) && event.spawns then s.workers + 1
                      else if Cleans(s, event) && s.workers > 0 then s.workers - 1
                      else s.workers
  {
    hide Keeps, Next, PhaseAfter, Waiting;
    PlacesCaused(s, event);
    NewRequest(s, event);
    forall k | 0 <= k < |s.records|
      ensures k < |Next(s, event).records| && Next(s, event).records[k].worker == PhaseAfter(s, event, k)
    {
      WorkerCaused(s, event, k);
    }
  }

  /** Only a clean end gives a place back. */
  lemma PhaseOccupied(s: System, event: Event, k: nat)
    requires k < |s.records|
    ensures Occupied(PhaseAfter(s, event, k)) == Occupied(s.records[k].worker) - if Cleans(s, event) && event.request == k then 1 else 0
    ensures !event.On? || event.request != k ==> PhaseAfter(s, event, k) == s.records[k].worker
  {
  }

  lemma PlacesKept(s: System, event: Event)
    requires Keeps(s) && PlacesExact(s)
    ensures PlacesExact(Next(s, event))
  {
    var t, n := Next(s, event), |s.records|;
    PlacesFollow(s, event);
    hide Next, Keeps, Alive, Grows, PhaseAfter, Occupied, Cleans;
    forall k | 0 <= k < n
      ensures !event.On? || event.request != k ==> t.records[k].worker == s.records[k].worker
      ensures Occupied(t.records[k].worker) == Occupied(s.records[k].worker) - if Cleans(s, event) && event.request == k then 1 else 0
    {
      PhaseOccupied(s, event, k);
    }
    CleansHere(s, event);
    if Grows(s, event) {
      AliveSame(s.records, t.records[..n]);
      AliveMore(t.records[..n], t.records[n]);
      assert t.records == t.records[..n] + [t.records[n]];
      NewOccupied();
    } else if event.On? && event.request < n {
      AliveChanged(s.records, t.records, event.request);
      AliveAtLeast(s.records, event.request);
    } else {
      AliveSame(s.records, t.records);
    }
  }

  lemma CleansHere(s: System, event: Event)
    ensures Cleans(s, event) ==> event.On? && event.request < |s.records| && Occupied(s.records[event.request].worker) == 1
  {
  }

  lemma NewOccupied()
    ensures Occupied(Starting) == 1 && Occupied(Reaped(true)) == 0
  {
  }

  lemma {:induction false} AliveAtLeast(records: seq<Request>, k: nat)
    requires k < |records|
    ensures Alive(records) >= Occupied(records[k].worker)
  {
    if k < |records| - 1 {
      AliveAtLeast(records[..|records| - 1], k);
    }
  }

  /** The places taken are exactly those of the workers that have not been cleaned up, never more than two. */
  lemma {:induction false} PlacesBounded(states: seq<System>, events: seq<Event>, n: nat)
    requires Run(states, events) && n <= |events|
    ensures |states| == |events| + 1 && states[n].workers == Alive(states[n].records) <= WORKER_LIMIT
    decreases n
  {
    hide Next, Keeps, Alive;
    RunSize(states, events);
    if n == 0 {
      FirstPlaces(states, events);
    } else {
      PlacesBounded(states, events, n - 1);
      RunKeeps(states, events, n - 1);
      PlacesKept(states[n - 1], events[n - 1]);
    }
  }

  lemma FirstPlaces(states: seq<System>, events: seq<Event>)
    requires Run(states, events)
    ensures PlacesExact(states[0])
  {
  }

  // Submissions

  /** Where the thread that talks to the host is after the event. */
  function SenderAfter(s: System, event: Event, k: nat): Sender
    requires k < |s.records|
  {
    var sender := s.records[k].sender;
    if MaySubmit(s, event, k) && event.action.spawns then Checking
    else if MayRetry(s, event, k) && event.action.spawns then Sending
    else if MayReconcile(s, event, k) && event.action.spawns then Resyncing
    else if !Sends(s, event, k) then sender
    else
      match sender
      case Checking => if Late(s, k) then NoSender else Preparing
      case Preparing => if event.action.ok then Prepared(s.serial) else NoSender
      case Prepared(_) => Marking
      case Marking => if Late(s, k) then NoSender else Sending
      case Sending => Sent
      case _ => NoSender
  }

  predicate SenderFollowed(s: System, event: Event, k: nat)
    requires k < |s.records|
  {
    var (a, t) := (s.records[k], Next(s, event));
    && k < |t.records| && t.records[k].sender == SenderAfter(s, event, k)
    && t.records[k].made == (if Sends(s, event, k) && a.sender.Prepared? then Some(a.sender.made) else a.made)
    && t.records[k].started == (a.started || (Sends(s, event, k) && a.sender.Marking? && !Late(s, k)))
  }

  lemma SenderMoves(s: System, k: nat, ok: bool, answer: SendResult)
    requires Keeps(s) && k < |s.records|
    ensures SenderFollowed(s, On(k, SenderRuns(ok, answer)), k)
  {
    hide Keeps, SenderFollowed;
    var sender := s.records[k].sender;
    if sender.Sent? || sender.Resyncing? {
      EndMoves(s, k, ok, answer);
    } else if sender.Marking? || sender.Sending? || sender.NoSender? {
      MarkMoves(s, k, ok, answer);
    } else {
      FirstMoves(s, k, ok, answer);
    }
  }

  lemma FirstMoves(s: System, k: nat, ok: bool, answer: SendResult)
    requires Keeps(s) && k < |s.records| && (s.records[k].sender.Checking? || s.records[k].sender.Preparing? || s.records[k].sender.Prepared?)
    ensures SenderFollowed(s, On(k, SenderRuns(ok, answer)), k)
  {
    Standing(s, k);
    SenderCauses(s, On(k, SenderRuns(ok, answer)), k);
    hide Keeps, MaySubmit, MayRetry, MayReconcile, Cancels;
  }

  lemma MarkMoves(s: System, k: nat, ok: bool, answer: SendResult)
    requires Keeps(s) && k < |s.records| && (s.records[k].sender.Marking? || s.records[k].sender.Sending? || s.records[k].sender.NoSender?)
    ensures SenderFollowed(s, On(k, SenderRuns(ok, answer)), k)
  {
    Standing(s, k);
    SenderCauses(s, On(k, SenderRuns(ok, answer)), k);
    hide Keeps, MaySubmit, MayRetry, MayReconcile, Cancels;
  }

  lemma EndMoves(s: System, k: nat, ok: bool, answer: SendResult)
    requires Keeps(s) && k < |s.records| && (s.records[k].sender.Sent? || s.records[k].sender.Resyncing?)
    ensures SenderFollowed(s, On(k, SenderRuns(ok, answer)), k)
  {
    Standing(s, k);
    SenderCauses(s, On(k, SenderRuns(ok, answer)), k);
    hide Keeps, MaySubmit, MayRetry, MayReconcile, Cancels;
  }

  lemma CallMoves(s: System, k: nat, action: Action)
    requires Keeps(s) && k < |s.records| && !action.SenderRuns? && !action.WorkerRuns?
    ensures SenderFollowed(s, On(k, action), k)
  {
    hide Keeps, SenderFollowed;
    match action
    case Cancel => LookMoves(s, k, action);
    case Inspect => LookMoves(s, k, action);
    case Submit(_) => SubmitMoves(s, k, action);
    case Retry(_) => RetryMoves(s, k, action);
    case _ => ReconcileMoves(s, k, action);
  }

  lemma LookMoves(s: System, k: nat, action: Action)
    requires Keeps(s) && k < |s.records| && (action.Cancel? || action.Inspect?)
    ensures SenderFollowed(s, On(k, action), k)
  {
    Standing(s, k);
    KeepsActive(s);
    hide Keeps, RecordSound;
  }

  lemma SubmitMoves(s: System, k: nat, action: Action)
    requires Keeps(s) && k < |s.records| && (action.Submit?)
    ensures SenderFollowed(s, On(k, action), k)
  {
    Standing(s, k);
    KeepsActive(s);
    hide Keeps, RecordSound;
  }

  lemma RetryMoves(s: System, k: nat, action: Action)
    requires Keeps(s) && k < |s.records| && (action.Retry?)
    ensures SenderFollowed(s, On(k, action), k)
  {
    Standing(s, k);
    KeepsActive(s);
    hide Keeps, RecordSound;
  }

  lemma ReconcileMoves(s: System, k: nat, action: Action)
    requires Keeps(s) && k < |s.records| && (action.Reconcile?)
    ensures SenderFollowed(s, On(k, action), k)
  {
    Standing(s, k);
    KeepsActive(s);
    hide Keeps, RecordSound;
  }

  lemma WorkerMoves(s: System, k: nat, result: WorkerResult, expired: bool, cleaned: bool)
    requires k < |s.records|
    ensures SenderFollowed(s, On(k, WorkerRuns(result, expired, cleaned)), k)
  {
    hide WorkerStep;
    WorkerKeepsSender(s, k, result, expired, cleaned);
  }

  predicate KeepsSender(s: System, t: System, k: nat)
    requires k < |s.records|
  {
    && |t.records| == |s.records| && t.records[k].sender == s.records[k].sender
    && t.records[k].made == s.records[k].made && t.records[k].started == s.records[k].started
  }

  lemma EarlyKeepsSender(s: System, k: nat, x: State, code: string)
    requires k < |s.records|
    ensures KeepsSender(s, Expired(s, k), k) && KeepsSender(s, Failed(s, k, x, code), k)
  {
  }

  lemma AcceptedKeepsSender(s: System, k: nat)
    requires k < |s.records|
    ensures KeepsSender(s, Accepted(s, k), k)
  {
    hide Expired;
    EarlyKeepsSender(s, k, WorkerFailed, "");
  }

  lemma ConcludedKeepsSender(s: System, k: nat, result: WorkerResult, expired: bool)
    requires k < |s.records|
    ensures KeepsSender(s, Concluded(s, k, result, expired), k)
  {
    hide Accepted, Failed, Expired;
    AcceptedKeepsSender(s, k);
    EarlyKeepsSender(s, k, WorkerFailed, if result.Broken? then result.code else "INVALID_PROPOSAL");
    EarlyKeepsSender(s, k, Crashed, "WORKER_CRASHED");
  }

  lemma WorkerKeepsSender(s: System, k: nat, result: WorkerResult, expired: bool, cleaned: bool)
    requires k < |s.records|
    ensures KeepsSender(s, WorkerStep(s, k, result, expired, cleaned), k)
  {
    hide WorkerStep, KeepsSender;
    match s.records[k].worker
    case Exited => ExitKeepsSender(s, k, result, expired, cleaned);
    case Ending => EndKeepsSender(s, k, result, expired, cleaned);
    case Reaped(_) => EndKeepsSender(s, k, result, expired, cleaned);
    case _ => WatchKeepsSender(s, k, result, expired, cleaned);
  }

  lemma WatchKeepsSender(s: System, k: nat, result: WorkerResult, expired: bool, cleaned: bool)
    requires k < |s.records| && (s.records[k].worker.Starting? || s.records[k].worker.Working?)
    ensures KeepsSender(s, WorkerStep(s, k, result, expired, cleaned), k)
  {
    hide Concluded, Failed, Expired;
    EarlyKeepsSender(s, k, WorkerFailed, if result.Broken? then result.code else "");
  }

  lemma ExitKeepsSender(s: System, k: nat, result: WorkerResult, expired: bool, cleaned: bool)
    requires k < |s.records| && (s.records[k].worker.Exited?)
    ensures KeepsSender(s, WorkerStep(s, k, result, expired, cleaned), k)
  {
    hide Concluded, Failed, Expired;
    ConcludedKeepsSender(s, k, result, expired);
  }

  lemma EndKeepsSender(s: System, k: nat, result: WorkerResult, expired: bool, cleaned: bool)
    requires k < |s.records| && (s.records[k].worker.Ending? || s.records[k].worker.Reaped?)
    ensures KeepsSender(s, WorkerStep(s, k, result, expired, cleaned), k)
  {
    hide Concluded, Failed, Expired;
  }

  /** The submission of a request moves on only by its own steps and by the calls that start it; what is prepared is kept for
      good, and a request is marked as started in time only. */
  lemma SenderCaused(s: System, event: Event, k: nat)
    requires Keeps(s) && k < |s.records|
    ensures
      var (a, t) := (s.records[k], Next(s, event));
      && k < |t.records| && t.records[k].sender == SenderAfter(s, event, k)
      && t.records[k].made == (if Sends(s, event, k) && a.sender.Prepared? then Some(a.sender.made) else a.made)
      && t.records[k].started == (a.started || (Sends(s, event, k) && a.sender.Marking? && !Late(s, k)))
  {
    assert SenderFollowed(s, event, k) by {
      hide Keeps, SenderFollowed;
      match event
      case On(j, action) =>
        if j != k {
          StrangerMoves(s, j, action, k);
        } else if action.SenderRuns? {
          SenderMoves(s, k, action.ok, action.answer);
        } else if action.WorkerRuns? {
          WorkerMoves(s, k, action.result, action.expired, action.cleaned);
        } else {
          CallMoves(s, k, action);
        }
      case _ => WholeMoves(s, event, k);
    }
  }

  lemma StrangerMoves(s: System, j: nat, action: Action, k: nat)
    requires Keeps(s) && k < |s.records| && j != k
    ensures SenderFollowed(s, On(j, action), k)
  {
    hide Keeps, Act, RecordSound;
    if j < |s.records| {
      ActChanges(s, j, action);
    }
  }

  lemma WholeMoves(s: System, event: Event, k: nat)
    requires Keeps(s) && k < |s.records| && !event.On?
    ensures SenderFollowed(s, event, k)
  {
    hide Keeps, SenderFollowed;
    match event
    case Start(arguments, supersede, spawns) => StartSender(s, arguments, supersede, spawns, k);
    case Restart => RestartSender(s, k);
    case Close => CloseSender(s, k);
    case Wait(ms) => WaitSender(s, ms, k);
  }

  lemma StartSender(s: System, arguments: Arguments, supersede: bool, spawns: bool, k: nat)
    requires Keeps(s) && k < |s.records|
    ensures SenderFollowed(s, Start(arguments, supersede, spawns), k)
  {
    hide Keeps, StartCall;
    StartChanges(s, arguments, supersede, spawns, k);
  }

  lemma RestartSender(s: System, k: nat)
    requires k < |s.records|
    ensures SenderFollowed(s, Restart, k)
  {
    if s.active.Some? && s.active.value < |s.records| {
      ExpiredAt(s.(generation := s.generation + 1), s.active.value, k);
    }
    hide Expired;
  }

  lemma CloseSender(s: System, k: nat)
    requires k < |s.records|
    ensures SenderFollowed(s, Close, k)
  {
    hide CancelAll;
    CancelAllStates(s.(closed := true), |s.records|, k);
  }

  lemma WaitSender(s: System, ms: nat, k: nat)
    requires k < |s.records|
    ensures SenderFollowed(s, Wait(ms), k)
  {
  }

  /** A submission goes out exactly when the thread of a request sends, and it is the object made for that request. */
  lemma SentCaused(s: System, event: Event)
    requires Keeps(s)
    ensures
      var sending := event.On? && event.request < |s.records| && Sends(s, event, event.request) && s.records[event.request].sender.Sending?;
      && (sending ==> s.records[event.request].made.Some?)
      && Next(s, event).sent == if sending then s.sent + [Submission(event.request, s.records[event.request].made.value)] else s.sent
  {
    match event
    case Start(arguments, supersede, spawns) => StartSends(s, arguments, supersede, spawns);
    case Restart => RestartSends(s);
    case Close => CancelAllSends(s.(closed := true), |s.records|);
    case Wait(ms) =>
    case On(j, action) =>
      if j < |s.records| {
        ActSends(s, j, action);
      }
  }

  lemma StartSends(s: System, arguments: Arguments, supersede: bool, spawns: bool)
    ensures StartCall(s, arguments, supersede, spawns).0.sent == s.sent
  {
  }

  lemma RestartSends(s: System)
    ensures RestartCall(s).0.sent == s.sent
  {
  }

  lemma {:induction false} CancelAllSends(s: System, n: nat)
    requires n <= |s.records|
    ensures CancelAll(s, n).sent == s.sent
    decreases n
  {
    if n > 0 {
      CancelAllSends(s, n - 1);
    }
  }

  lemma ActSends(s: System, j: nat, action: Action)
    requires Keeps(s) && j < |s.records|
    ensures
      var sending := action.SenderRuns? && s.records[j].sender.Sending?;
      && (sending ==> s.records[j].made.Some?)
      && Act(s, j, action).sent == if sending then s.sent + [Submission(j, s.records[j].made.value)] else s.sent
  {
    Standing(s, j);
    hide Keeps;
    if action.WorkerRuns? {
      hide WorkerStep, RecordSound;
      WorkerSends(s, j, action.result, action.expired, action.cleaned);
    } else {
      hide WorkerStep;
    }
  }

  lemma WorkerSends(s: System, k: nat, result: WorkerResult, expired: bool, cleaned: bool)
    requires k < |s.records|
    ensures WorkerStep(s, k, result, expired, cleaned).sent == s.sent
  {
    ConcludedSends(s, k, result, expired);
    hide Concluded;
  }

  lemma ConcludedSends(s: System, k: nat, result: WorkerResult, expired: bool)
    requires k < |s.records|
    ensures Concluded(s, k, result, expired).sent == s.sent && |Concluded(s, k, result, expired).records| == |s.records|
  {
  }
}
