/** The supervisor as an object: each method is one critical section under its lock. */
module SupervisorObject {
  import opened Prelude
  import opened Supervisor

  class WorkerSupervisor {
    var now: nat
    var closed: bool
    var generation: nat
    var active: Option<nat>
    var blocked: Option<nat>
    var workers: nat
    var records: seq<Request>
    var serial: nat
    var sent: seq<Submission>

    ghost function Now(): System
      reads this
    {
      System(now, closed, generation, active, blocked, workers, records, serial, sent)
    }

    ghost predicate Valid()
      reads this
    {
      Keeps(Now())
    }

    constructor ()
      ensures Valid() && Now() == OPENED
    {
      now, closed, generation, active, blocked, workers, records, serial, sent := 0, false, 1, None, None, 0, [], 0, [];
      new;
      OpenedKeeps();
    }

    method Finish(k: nat, x: State, code: string)
      requires k < |records|
      modifies this`records, this`active
      ensures Now() == Ended(old(Now()), k, x, code)
    {
      records := records[k := records[k].(state := x, code := code)];
      if active == Some(k) {
        active := None;
      }
    }

    method Expire(k: nat)
      requires k < |records|
      modifies this`records, this`active
      ensures Now() == Expired(old(Now()), k)
    {
      if PreSubmit(records[k].state) && now >= records[k].deadline {
        Finish(k, TimedOut, "DEADLINE_EXPIRED");
      }
    }

    /** Starts a request, or replaces the current one by it. */
    method StartRequest(arguments: Arguments, supersede: bool, spawns: bool) returns (answer: Answer)
      requires Valid()
      modifies this
      ensures Valid()
      ensures (Now(), answer) == StartCall(old(Now()), arguments, supersede, spawns)
    {
      if !ValidArguments(arguments) {
        return PROTOCOL_ERROR;
      }
      answer := StartUnderLock(arguments.timeout, supersede, spawns);
    }

    method StartUnderLock(timeout: nat, supersede: bool, spawns: bool) returns (answer: Answer)
      requires Valid()
      modifies this
      ensures Valid()
      ensures (Now(), answer) == StartLocked(old(Now()), timeout, supersede, spawns)
    {
      hide Keeps, Added;
      StartKeeps(Now(), timeout, supersede, spawns);
      KeepsActive(Now());
      if closed {
        return PROTOCOL_ERROR;
      }
      if blocked.Some? {
        return OUTCOME_UNKNOWN;
      }
      if |records| >= REQUEST_LIMIT || workers >= WORKER_LIMIT {
        return PROTOCOL_ERROR;
      }
      var prior := active;
      var waiting := false;
      if prior.Some? {
        Expire(prior.value);
        waiting := PreSubmit(records[prior.value].state);
        if waiting && !supersede {
          return PROTOCOL_ERROR;
        }
      }
      if supersede {
        generation := generation + 1;
        if waiting {
          Finish(prior.value, Superseded, "SUPERSEDED");
        }
      }
      Add(timeout, spawns);
      answer := Done;
    }

    method Add(timeout: nat, spawns: bool)
      modifies this`records, this`active, this`workers
      ensures Now() == Added(old(Now()), timeout, spawns)
    {
      var number := |records|;
      records := records + [Request(generation, now + timeout, Running, 0, None, "", false, false, None, false, NoSender, Starting, None)];
      active, workers := Some(number), workers + 1;
      if !spawns {
        workers := workers - 1;
        records := records[number := records[number].(cleaned := true, worker := Reaped(true))];
        Finish(number, WorkerFailed, "WORKER_START_FAILED");
      }
    }

    method Cancel(k: nat) returns (answer: string)
      requires Valid() && k < |records|
      modifies this`records, this`active
      ensures Valid() && (Now(), answer) == CancelCall(old(Now()), k)
    {
      hide Keeps;
      ActKept(Now(), k, Action.Cancel);
      Expire(k);
      if Busy(records[k].state) || records[k].prepared.Some? {
        return "too_late";
      }
      if !PreSubmit(records[k].state) {
        return "terminal";
      }
      Finish(k, Cancelled, "CANCELLED");
      answer := "cancelled";
    }

    method Restart() returns (answer: Answer)
      requires Valid()
      modifies this`generation, this`records, this`active
      ensures Valid() && (Now(), answer) == RestartCall(old(Now()))
    {
      hide Keeps;
      RestartKeeps(Now());
      KeepsActive(Now());
      if closed {
        return PROTOCOL_ERROR;
      }
      generation := generation + 1;
      if active.Some? {
        var k := active.value;
        Expire(k);
        if PreSubmit(records[k].state) {
          Finish(k, Superseded, "WORKER_RESTARTED");
        }
      }
      answer := Done;
    }

    /** The result of a worker is taken only while its request is the current one. */
    method Accept(k: nat)
      requires k < |records|
      modifies this`records, this`active
      ensures Now() == Accepted(old(Now()), k)
    {
      Expire(k);
      if closed || !records[k].state.Running? || active != Some(k) || records[k].generation != generation {
        records := records[k := records[k].(late := records[k].late + 1)];
        return;
      }
      records := records[k := records[k].(proposed := true, state := ProposalReady)];
    }

    method Submit(k: nat, spawns: bool) returns (answer: Answer)
      requires Valid() && k < |records|
      modifies this`records, this`active, this`blocked
      ensures Valid() && (Now(), answer) == SubmitCall(old(Now()), k, spawns)
    {
      hide Keeps;
      ActKept(Now(), k, Action.Submit(spawns));
      Expire(k);
      if records[k].state.TimedOut? {
        return Done;
      }
      if closed || !records[k].state.ProposalReady? || active != Some(k) || records[k].generation != generation {
        return PROTOCOL_ERROR;
      }
      if blocked.Some? {
        return OUTCOME_UNKNOWN;
      }
      if !spawns {
        Finish(k, WorkerFailed, "SUBMIT_START_FAILED");
        return Done;
      }
      records, blocked := records[k := records[k].(state := Submitting, sender := Checking)], Some(k);
      answer := Done;
    }

    method Retry(k: nat, spawns: bool) returns (answer: Answer)
      requires Valid() && k < |records|
      modifies this`records
      ensures Valid() && (Now(), answer) == RetryCall(old(Now()), k, spawns)
    {
      hide Keeps;
      ActKept(Now(), k, Action.Retry(spawns));
      var r := records[k];
      if closed || !r.state.OutcomeUnknown? || r.prepared.None? || !r.started || blocked != Some(k) {
        return PROTOCOL_ERROR;
      }
      records := records[k := if spawns then r.(state := Submitting, code := "", sender := Sending) else r.(code := "OUTCOME_UNKNOWN")];
      answer := Done;
    }

    method Reconcile(k: nat, spawns: bool) returns (answer: Answer)
      requires Valid() && k < |records|
      modifies this`records
      ensures Valid() && (Now(), answer) == ReconcileCall(old(Now()), k, spawns)
    {
      hide Keeps;
      ActKept(Now(), k, Action.Reconcile(spawns));
      var r := records[k];
      if closed || blocked != Some(k) || !r.state.OutcomeUnknown? {
        return PROTOCOL_ERROR;
      }
      records := records[k := if spawns then r.(state := Reconciling, code := "", sender := Resyncing) else r.(code := "RECONCILIATION_FAILED")];
      answer := Done;
    }

    /** The critical sections of a worker thread before its end: whether it may begin, whether it expired, how it ended. */
    method RunWorker(k: nat, result: WorkerResult, expired: bool)
      requires Valid() && k < |records| && !records[k].worker.Ending?
      modifies this`records, this`active
      ensures Valid() && Now() == WorkerStep(old(Now()), k, result, expired, false)
    {
      hide Keeps;
      ActKept(Now(), k, WorkerRuns(result, expired, false));
      match records[k].worker {
        case Starting =>
          if closed || now >= records[k].deadline {
            Expire(k);
            records := records[k := records[k].(worker := Ending)];
          } else {
            records := records[k := records[k].(worker := Working)];
          }
        case Working =>
          if result.Broken? {
            Fail(k, WorkerFailed, result.code);
            records := records[k := records[k].(worker := Ending)];
          } else {
            Expire(k);
            records := records[k := records[k].(worker := Exited)];
          }
        case Exited =>
          if result.Proposal? && result.valid {
            Accept(k);
          } else if result.Broken? {
            Fail(k, WorkerFailed, result.code);
          } else if result.Exit? && result.failed && !result.invalid {
            if !expired {
              Fail(k, Crashed, "WORKER_CRASHED");
            }
          } else if result.Proposal? || !expired {
            Fail(k, WorkerFailed, "INVALID_PROPOSAL");
          }
          records := records[k := records[k].(worker := Ending)];
        case _ =>
      }
    }

    method Fail(k: nat, x: State, code: string)
      requires k < |records|
      modifies this`records, this`active
      ensures Now() == Failed(old(Now()), k, x, code)
    {
      if records[k].state.Running? {
        Finish(k, x, code);
      }
    }

    /** The end of a worker thread. */
    method CleanUp(k: nat, cleaned: bool)
      requires Valid() && k < |records| && records[k].worker.Ending?
      modifies this`records, this`active, this`workers
      ensures Valid() && Now() == WorkerStep(old(Now()), k, Broken(""), false, cleaned)
    {
      hide Keeps;
      ActKept(Now(), k, WorkerRuns(Broken(""), false, cleaned));
      records := records[k := records[k].(cleaned := cleaned, worker := Reaped(cleaned))];
      if cleaned {
        workers := if workers > 0 then workers - 1 else 0;
      } else if PreSubmit(records[k].state) {
        Finish(k, WorkerFailed, "CLEANUP_FAILED");
      }
    }

    /** One step of the submission thread of a request. */
    method RunSender(k: nat, ok: bool, result: SendResult)
      requires Valid() && k < |records|
      modifies this
      ensures Valid() && Now() == SenderStep(old(Now()), k, ok, result)
    {
      hide Keeps;
      ActKept(Now(), k, SenderRuns(ok, result));
      var r := records[k];
      match r.sender {
        case NoSender =>
        case Checking =>
          if now >= r.deadline {
            records, blocked := records[k := r.(sender := NoSender)], None;
            Finish(k, TimedOut, "DEADLINE_EXPIRED");
          } else {
            records := records[k := r.(sender := Preparing)];
          }
        case Preparing =>
          if ok {
            records, serial := records[k := r.(sender := Prepared(serial))], serial + 1;
          } else {
            BecomeUnknown(k, "OUTCOME_UNKNOWN");
          }
        case Prepared(made) =>
          records := records[k := r.(prepared := Some(made), made := Some(made), sender := Marking)];
        case Marking =>
          if now >= r.deadline {
            BecomeUnknown(k, "DEADLINE_EXPIRED");
          } else {
            records := records[k := r.(started := true, sender := Sending)];
          }
        case Sending =>
          if r.prepared.None? {
            BecomeUnknown(k, "OUTCOME_UNKNOWN");
          } else {
            records, sent := records[k := r.(sender := Sent)], sent + [Submission(k, r.prepared.value)];
          }
        case Sent =>
          if result.Answered? {
            records, blocked := records[k := r.(receipt := Some(result.status), prepared := None, sender := NoSender)], None;
            Finish(k, if result.status.ReceiptCommitted? then Committed else Rejected, "");
          } else {
            BecomeUnknown(k, if result.ApiError? then result.code else "OUTCOME_UNKNOWN");
          }
        case Resyncing =>
          if ok {
            records, blocked := records[k := r.(prepared := None, sender := NoSender)], None;
            Finish(k, Reconciled, "");
          } else {
            BecomeUnknown(k, "RECONCILIATION_FAILED");
          }
      }
    }

    method BecomeUnknown(k: nat, code: string)
      requires k < |records|
      modifies this`records
      ensures Now() == Unknown(old(Now()), k, code)
    {
      records := records[k := records[k].(state := OutcomeUnknown, code := code, sender := NoSender)];
    }

    /** Closing cancels every request that has not been submitted. */
    method Close()
      requires Valid()
      modifies this`closed, this`records, this`active
      ensures Valid() && Now() == CloseCall(old(Now()))
    {
      hide Keeps;
      CloseKeeps(Now());
      closed := true;
      ghost var start := Now();
      var n := 0;
      while n < |records|
        invariant n <= |records| == |start.records| && closed
        invariant Now() == CancelAll(start, n)
      {
        if PreSubmit(records[n].state) {
          Finish(n, Cancelled, "SUPERVISOR_CLOSED");
        }
        n := n + 1;
      }
    }
  }
}
