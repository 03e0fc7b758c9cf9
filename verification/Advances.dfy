/** What the steps of the owner thread amount to: what becomes of every task, and of a whole advance. */
module Advances {
  import opened Prelude
  import opened Owner

  // Ticks

  /** The ticks that are due are those of all the time there is; at most four are executed, the rest is dropped. */
  lemma BatchExact(stats: Stats, elapsed: nat)
    ensures
      var b := BatchOf(stats, elapsed);
      && PHASE * b.due + b.remainder == stats.remainder + elapsed * RATE && b.remainder < PHASE
      && b.executed + b.dropped == b.due && b.executed <= CATCH_UP
      && (b.dropped > 0 ==> b.executed == CATCH_UP) && (b.overloaded <==> b.dropped > 0)
      && var after := Counted(stats, b);
         && after.tick == stats.tick + b.executed && after.dropped == stats.dropped + b.dropped && after.remainder == b.remainder
         && after.overloads == stats.overloads + (if b.dropped > 0 then 1 else 0)
  {
    var partial := stats.remainder + (elapsed % PHASE) * RATE;
    assert elapsed == PHASE * (elapsed / PHASE) + elapsed % PHASE;
    assert partial == PHASE * (partial / PHASE) + partial % PHASE;
    assert PHASE * BatchOf(stats, elapsed).due == PHASE * ((elapsed / PHASE) * RATE) + PHASE * (partial / PHASE);
  }

  // Tasks

  /** A task is queued exactly when the owner is not stopping, there is room, and its time has not passed; otherwise its caller
      is told at once. */
  lemma DispatchExact(s: System, deadline: nat, authoring: bool)
    ensures
      var (t, n) := (Dispatched(s, deadline, authoring), |s.jobs|);
      var queued := !s.stop && s.now < s.deadline && s.now < deadline && |s.pending| < QUEUE_LIMIT;
      && |t.jobs| == n + 1 && t.jobs[..n] == s.jobs && t == s.(jobs := t.jobs, pending := t.pending)
      && t.jobs[n].authoring == authoring && !t.jobs[n].failed
      && t.jobs[n].deadline <= deadline && t.jobs[n].deadline <= s.deadline && (t.jobs[n].deadline == deadline || t.jobs[n].deadline == s.deadline)
      && (if queued then t.jobs[n].state == Pending && t.jobs[n].caller == Waiting && t.pending == s.pending + [n]
          else t.jobs[n].state == Canceled && t.jobs[n].caller == Declined && t.pending == s.pending)
  {
  }

  /** The owner looks for a task now: in the first due tick that has none yet, and once after every advance. */
  predicate Claims(s: System, event: Event) {
    event.Step? && (s.pc.Polling? || (s.pc.Ticking? && s.pc.index < s.pc.b.executed && s.pc.done.None?))
  }

  function FrontOf(s: System): nat
    requires Indexed(s)
  {
    Overrun(Stopping(s), s.now, Deadlines(s.jobs, s.pending))
  }

  /** The task that is claimed. */
  function TakenBy(s: System): Option<nat>
    requires Indexed(s)
  {
    var d := FrontOf(s);
    var at := FirstTimely(Kinds(s.jobs, s.pending)[d..], s.pc.Ticking?, s.pc.Ticking? && s.pc.b.overloaded);
    if d + at < |s.pending| then Some(s.pending[d + at]) else None
  }

  /** The task is cancelled: its caller gave up in time, it expired at the front of the queue, or the owner closes. */
  predicate Cancels(s: System, event: Event, j: nat)
    requires Indexed(s) && j < |s.jobs|
  {
    || (event == TimeOut(j) && s.jobs[j].state == Pending && s.jobs[j].caller == Waiting && s.now >= s.jobs[j].deadline)
    || (Claims(s, event) && j in s.pending[..FrontOf(s)])
    || (event.Step? && s.pc.Closing? && j in s.pending)
  }

  predicate Completes(s: System, event: Event, j: nat)
    requires j < |s.jobs|
  {
    event.Step? && (s.pc == Finishing(Some(j)) || s.pc == Served(j) || s.pc == Failing(Some(j)))
  }

  /** A task after the event, by cause. */
  function JobAfter(s: System, event: Event, j: nat): Job
    requires Indexed(s) && j < |s.jobs|
  {
    var job := s.jobs[j];
    if Cancels(s, event, j) then job.(state := Canceled, caller := if event.TimeOut? then Declined else job.caller)
    else if Claims(s, event) && TakenBy(s) == Some(j) then job.(state := Running)
    else if event.Step? && (s.pc.Working? || s.pc.Serving?) && s.pc.job == j then job.(failed := event.throws)
    else if Completes(s, event, j) then job.(state := Completed, failed := job.failed || s.pc.Failing?)
    else if event == Release(j) && job.caller == Waiting then
      match job.state
      case Canceled => job.(caller := Declined)
      case Completed => job.(caller := if job.failed then Raised else Accepted)
      case _ => job
    else job
  }

  predicate Follows(s: System, event: Event, j: nat)
    requires Indexed(s) && j < |s.jobs|
  {
    var t := Next(s, event);
    j < |t.jobs| && t.jobs[j] == JobAfter(s, event, j)
  }

  /** A claim is made on the tasks only. */
  lemma ClaimJobs(s: System, event: Event)
    requires Keeps(s) && Indexed(s) && Claims(s, event)
    ensures Next(s, event).jobs == Claimed(s, s.pc.Ticking?, s.pc.Ticking? && s.pc.b.overloaded).0.jobs
  {
    hide Keeps, Claimed;
  }

  lemma TakenExact(s: System, event: Event)
    requires Keeps(s) && Indexed(s) && Claims(s, event)
    ensures ClaimEffect(s.jobs, Next(s, event).jobs, s.pending[..FrontOf(s)], TakenBy(s))
    ensures TakenBy(s).Some? ==> TakenBy(s).value !in s.pending[..FrontOf(s)]
  {
    hide Keeps, QueueExact, RunningExact, Claimed, Overrun, FirstTimely, Deadlines, Kinds, Next, ClaimEffect, Remaining, Stopping;
    KeepsParts(s);
    ClaimJobs(s, event);
    ClaimDetermined(s, s.pc.Ticking?, s.pc.Ticking? && s.pc.b.overloaded);
    DistinctFront(s);
  }

  lemma ClaimFollows(s: System, event: Event, j: nat)
    requires Keeps(s) && Indexed(s) && j < |s.jobs| && Claims(s, event)
    ensures Follows(s, event, j)
  {
    TakenExact(s, event);
    ClaimOnly(s, event, j);
    hide Keeps, Indexed, Next, FrontOf, TakenBy, JobAfter, Claims;
  }

  /** Nothing else happens to a task when one is claimed. */
  lemma ClaimOnly(s: System, event: Event, j: nat)
    requires Indexed(s) && j < |s.jobs| && Claims(s, event)
    ensures Cancels(s, event, j) <==> j in s.pending[..FrontOf(s)]
    ensures JobAfter(s, event, j) ==
      if j in s.pending[..FrontOf(s)] then s.jobs[j].(state := Canceled)
      else if TakenBy(s) == Some(j) then s.jobs[j].(state := Running)
      else s.jobs[j]
  {
    hide FrontOf, TakenBy;
  }

  /** What is taken is not among what is dropped. */
  lemma DistinctFront(s: System)
    requires QueueExact(s.jobs, s.pending) && Indexed(s)
    ensures TakenBy(s).Some? ==> TakenBy(s).value !in s.pending[..FrontOf(s)]
  {
    hide Overrun, FirstTimely, Deadlines, Kinds;
    DistinctParts(s.pending, FrontOf(s));
  }

  lemma StepFollows(s: System, event: Event, j: nat)
    requires Keeps(s) && Indexed(s) && j < |s.jobs| && event.Step? && !Claims(s, event)
    ensures Follows(s, event, j)
  {
    hide Keeps, Follows, OwnerStep;
    match s.pc
    case Working(_, _, _) => RunFollows(s, event, j);
    case Serving(_) => RunFollows(s, event, j);
    case Finishing(_) => EndFollows(s, event, j);
    case Served(_) => EndFollows(s, event, j);
    case Failing(_) => FailFollows(s, event, j);
    case Closing => CloseFollows(s, event, j);
    case _ => QuietFollows(s, event, j);
  }

  lemma RunFollows(s: System, event: Event, j: nat)
    requires Keeps(s) && Indexed(s) && j < |s.jobs| && event.Step? && (s.pc.Working? || s.pc.Serving?)
    ensures Follows(s, event, j)
  {
    hide Keeps, Claimed, BatchOf, Counted, Countable, FrontOf, TakenBy;
  }

  lemma EndFollows(s: System, event: Event, j: nat)
    requires Keeps(s) && Indexed(s) && j < |s.jobs| && event.Step? && (s.pc.Finishing? || s.pc.Served?)
    ensures Follows(s, event, j)
  {
    hide Keeps, Claimed, BatchOf, Counted, Countable, FrontOf, TakenBy;
  }

  lemma FailFollows(s: System, event: Event, j: nat)
    requires Keeps(s) && Indexed(s) && j < |s.jobs| && event.Step? && s.pc.Failing?
    ensures Follows(s, event, j)
  {
    hide Keeps, Claimed, BatchOf, Counted, Countable, FrontOf, TakenBy;
  }

  lemma CloseFollows(s: System, event: Event, j: nat)
    requires Keeps(s) && Indexed(s) && j < |s.jobs| && event.Step? && s.pc.Closing?
    ensures Follows(s, event, j)
  {
    hide Keeps, Claimed, BatchOf, Counted, Countable, FrontOf, TakenBy;
  }

  lemma QuietFollows(s: System, event: Event, j: nat)
    requires Keeps(s) && Indexed(s) && j < |s.jobs| && event.Step? && (s.pc.Top? || s.pc.Publishing? || s.pc.Gone? || (s.pc.Ticking? && !Claims(s, event)))
    ensures Follows(s, event, j)
  {
    hide Keeps, Claimed, BatchOf, Counted, Countable, FrontOf, TakenBy;
  }

  lemma CallFollows(s: System, event: Event, j: nat)
    requires Indexed(s) && j < |s.jobs| && !event.Step?
    ensures Follows(s, event, j)
  {
    hide FrontOf, TakenBy, Erase;
  }

  /** Whatever happens, every task changes exactly by its causes. */
  lemma JobCaused(s: System, event: Event, j: nat)
    requires Keeps(s) && j < |s.jobs|
    ensures Indexed(s)
    ensures
      var t := Next(s, event);
      j < |t.jobs| && t.jobs[j] == JobAfter(s, event, j)
  {
    KeptIndexed(s);
    assert Follows(s, event, j) by {
      hide Keeps, Follows, Claims;
      if Claims(s, event) {
        ClaimFollows(s, event, j);
      } else if event.Step? {
        StepFollows(s, event, j);
      } else {
        CallFollows(s, event, j);
      }
    }
  }

  // Advances

  /** `n` steps of the owner in a row, in which nothing fails and no time passes. */
  function Steps(s: System, n: nat): System {
    if n == 0 then s
    else
      var t := Steps(s, n - 1);
      if Indexed(t) then OwnerStep(t, 0, false) else t
  }

  lemma {:induction false} StepsKeep(s: System, n: nat)
    requires Keeps(s)
    ensures Keeps(Steps(s, n))
  {
    hide Keeps, Indexed, OwnerStep;
    if n > 0 {
      StepsKeep(s, n - 1);
      OwnerKeeps(Steps(s, n - 1), 0, false);
    }
  }

  lemma {:induction false} StepsThen(s: System, m: nat, n: nat)
    ensures Steps(Steps(s, m), n) == Steps(s, m + n)
    decreases n
  {
    hide Indexed, OwnerStep;
    if n > 0 {
      StepsThen(s, m, n - 1);
    }
  }


  // A whole advance

  /** In the ticks of an advance, `index` of them done. */
  predicate Inside(s: System, b: Batch, index: nat) {
    s.pc.Ticking? && s.pc.b == b && s.pc.index == index <= b.executed
  }

  /** Clock, counters and the end of the owner are as they were; at most `more` tasks have run. */
  predicate Onwards(s: System, t: System, more: nat) {
    && t.stats == s.stats && t.advances == s.advances && t.stop == s.stop && t.now == s.now && t.deadline == s.deadline
    && s.runs <= t.runs && |t.runs| <= |s.runs| + more
  }

  lemma {:induction false} One(s: System)
    requires Indexed(s)
    ensures Steps(s, 1) == OwnerStep(s, 0, false)
  {
    assert Steps(s, 0) == s;
  }

  lemma {:induction false} ClaimMoves(s: System, b: Batch, index: nat)
    requires Keeps(s) && Inside(s, b, index) && index < b.executed && s.pc.done.None?
    ensures
      var t := Steps(s, 1);
      Onwards(s, t, 0) && (t.pc == Publishing(b, index, None) || (t.pc.Working? && t.pc.b == b && t.pc.index == index))
  {
    KeptIndexed(s);
    KeepsParts(s);
    hide Keeps, Claimed;
    One(s);
    ClaimExact(s, true, b.overloaded);
  }

  lemma {:induction false} WorkMoves(s: System)
    requires Keeps(s) && s.pc.Working?
    ensures
      var t := Steps(s, 1);
      Onwards(s, t, 1) && t.pc == Publishing(s.pc.b, s.pc.index, Some(s.pc.job))
  {
    KeptIndexed(s);
    hide Keeps;
    One(s);
  }

  lemma {:induction false} PublishMoves(s: System)
    requires Keeps(s) && s.pc.Publishing?
    ensures
      var t := Steps(s, 1);
      && Onwards(s, t, 0) && t.pc == Ticking(s.pc.b, s.pc.index + 1, s.pc.done) && t.published == s.world == t.world
  {
    KeptIndexed(s);
    hide Keeps;
    One(s);
  }

  lemma {:induction false} AgainMoves(s: System, b: Batch, index: nat)
    requires Keeps(s) && Inside(s, b, index) && index < b.executed && s.pc.done.Some?
    ensures
      var t := Steps(s, 1);
      Onwards(s, t, 0) && t.pc == Publishing(b, index, s.pc.done)
  {
    KeptIndexed(s);
    hide Keeps;
    One(s);
  }

  /** A tick takes at most three steps; after it the snapshot is published. */
  lemma TickEnds(s: System, b: Batch, index: nat) returns (n: nat)
    requires Keeps(s) && Inside(s, b, index) && index < b.executed
    ensures Keeps(Steps(s, n)) && Inside(Steps(s, n), b, index + 1) && Steps(s, n).published == Steps(s, n).world
    ensures Onwards(s, Steps(s, n), if s.pc.done.None? then 1 else 0)
    ensures s.pc.done.Some? ==> Steps(s, n).pc.done.Some?
    ensures Steps(s, n).pc.done.None? ==> |Steps(s, n).runs| == |s.runs|
  {
    hide Keeps, OwnerStep;
    StepsKeep(s, 1);
    var t := Steps(s, 1);
    n := 2;
    if s.pc.done.Some? {
      AgainMoves(s, b, index);
      PublishMoves(t);
      StepsThen(s, 1, 1);
    } else {
      ClaimMoves(s, b, index);
      if t.pc.Working? {
        n := 3;
        WorkMoves(t);
        StepsThen(s, 1, 1);
        StepsKeep(s, 2);
        PublishMoves(Steps(s, 2));
        StepsThen(s, 2, 1);
      } else {
        PublishMoves(t);
        StepsThen(s, 1, 1);
      }
    }
    StepsKeep(s, n);
  }

  /** All the remaining ticks. */
  lemma {:induction false} TicksEnd(s: System, b: Batch, index: nat) returns (n: nat)
    requires Keeps(s) && Inside(s, b, index)
    ensures Keeps(Steps(s, n)) && Inside(Steps(s, n), b, b.executed)
    ensures Onwards(s, Steps(s, n), if s.pc.done.None? then 1 else 0)
    ensures index < b.executed || s.published == s.world ==> Steps(s, n).published == Steps(s, n).world
    decreases b.executed - index
  {
    hide Keeps, OwnerStep;
    if index == b.executed {
      n := 0;
    } else {
      var first := TickEnds(s, b, index);
      var t := Steps(s, first);
      var others := TicksEnd(t, b, index + 1);
      n := first + others;
      StepsThen(s, first, others);
    }
  }

  lemma {:induction false} CountMoves(s: System, b: Batch)
    requires Keeps(s) && Inside(s, b, b.executed)
    ensures
      var t := Steps(s, 1);
      t == s.(stats := Counted(s.stats, b), pc := Finishing(s.pc.done))
  {
    KeptIndexed(s);
    hide Keeps, Counted;
    One(s);
  }

  /** An advance that has begun ends, when nothing fails: all its ticks are executed and published, at most one task runs, and
      the counters move by exactly its batch. */
  lemma AdvanceEnds(s: System, b: Batch) returns (n: nat)
    requires Keeps(s) && Inside(s, b, 0) && s.pc.done.None?
    ensures
      var t := Steps(s, n);
      && Keeps(t) && t.pc.Finishing? && t.stats == Counted(s.stats, b) && t.advances == s.advances
      && s.runs <= t.runs && |t.runs| <= |s.runs| + 1 && (b.executed > 0 ==> t.published == t.world)
  {
    hide Keeps, OwnerStep, Counted;
    var ticks := TicksEnd(s, b, 0);
    CountMoves(Steps(s, ticks), b);
    n := ticks + 1;
    StepsThen(s, ticks, 1);
    StepsKeep(s, n);
  }

  /** The owner begins an advance exactly when it is not stopping and no counter would overflow. */
  lemma AdvanceBegins(s: System, elapsed: nat, throws: bool)
    requires Keeps(s) && s.pc.Top?
    ensures Indexed(s)
    ensures
      var (t, b) := (OwnerStep(s, elapsed, throws), BatchOf(s.stats, elapsed));
      && (Stopping(s) ==> t == s.(pc := Closing))
      && (!Stopping(s) && Countable(s.stats, b) ==> Inside(t, b, 0) && t.pc.done.None? && t.advances == s.advances + 1)
      && (!Stopping(s) && !Countable(s.stats, b) ==> t == s.(pc := Failing(None)))
  {
    KeptIndexed(s);
    hide Keeps, BatchOf, Countable;
  }
}
