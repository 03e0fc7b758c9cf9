/** The owner thread and its callers: a bounded job queue whose critical sections are atomic steps. */
module Owner {
  import opened Prelude

  const QUEUE_LIMIT := 2
  const CATCH_UP := 4
  const PHASE := 1_000_000_000
  const RATE := 60

  // Fixed steps

  datatype Stats = Stats(tick: nat, overloads: nat, dropped: nat, remainder: nat)

  datatype Batch = Batch(due: nat, executed: nat, dropped: nat, remainder: nat, overloaded: bool)

  function BatchOf(stats: Stats, elapsed: nat): Batch {
    var partial := stats.remainder + (elapsed % PHASE) * RATE;
    var due := (elapsed / PHASE) * RATE + partial / PHASE;
    Batch(due, if due < CATCH_UP then due else CATCH_UP, if due > CATCH_UP then due - CATCH_UP else 0, partial % PHASE, due > CATCH_UP)
  }

  /** No cumulative counter would overflow. */
  predicate Countable(stats: Stats, b: Batch) {
    && stats.tick <= U64_MAX - b.executed && stats.dropped <= U64_MAX - b.dropped
    && !(b.overloaded && stats.overloads == U64_MAX)
  }

  /** The counters once the batch is over. */
  function Counted(stats: Stats, b: Batch): Stats {
    Stats(stats.tick + b.executed, stats.overloads + (if b.overloaded then 1 else 0), stats.dropped + b.dropped, b.remainder)
  }

  /** No time is lost: executed and dropped ticks and the remainder account for all of it. */
  lemma TimeConserved(stats: Stats, elapsed: nat, total: nat)
    requires PHASE * (stats.tick + stats.dropped) + stats.remainder == RATE * total && stats.remainder < PHASE
    ensures
      var after := Counted(stats, BatchOf(stats, elapsed));
      PHASE * (after.tick + after.dropped) + after.remainder == RATE * (total + elapsed) && after.remainder < PHASE
  {
    var b := BatchOf(stats, elapsed);
    var partial := stats.remainder + (elapsed % PHASE) * RATE;
    assert b.executed + b.dropped == b.due;
    assert elapsed == PHASE * (elapsed / PHASE) + elapsed % PHASE;
    assert partial == PHASE * (partial / PHASE) + partial % PHASE;
    assert PHASE * b.due == PHASE * ((elapsed / PHASE) * RATE) + PHASE * (partial / PHASE);
  }

  // Jobs

  datatype JobState = Pending | Running | Completed | Canceled
  datatype Verdict = Waiting | Accepted | Declined | Raised

  /** A task with its waiting caller. */
  datatype Job = Job(deadline: nat, authoring: bool, state: JobState, failed: bool, caller: Verdict)

  /** One execution of a task: during a tick of which advance, and whether that one was overloaded. */
  datatype RunRecord = RunRecord(job: nat, advance: nat, tick: bool, overloaded: bool)

  /** Where the owner thread is. */
  datatype Pc =
    | Top
    | Ticking(b: Batch, index: nat, done: Option<nat>)
    | Working(b: Batch, index: nat, job: nat)
    | Publishing(b: Batch, index: nat, done: Option<nat>)
    | Finishing(done: Option<nat>)
    | Polling
    | Serving(job: nat)
    | Served(job: nat)
    | Failing(done: Option<nat>)
    | Closing
    | Gone

  /** `world` lists the authoring tasks whose effect the world has, `published` those in the published snapshot. */
  datatype System = System(now: nat, deadline: nat, stop: bool, jobs: seq<Job>, pending: seq<nat>, pc: Pc,
                           stats: Stats, advances: nat, runs: seq<RunRecord>, world: seq<nat>, published: seq<nat>)

  predicate Stopping(s: System) {
    s.stop || s.now >= s.deadline
  }

  function WithState(jobs: seq<Job>, j: nat, state: JobState): (r: seq<Job>)
    requires j < |jobs|
    ensures |r| == |jobs|
  {
    jobs[j := jobs[j].(state := state)]
  }

  function Erase(pending: seq<nat>, j: nat): (r: seq<nat>)
    ensures |r| <= |pending|
    ensures forall x :: x in r <==> x in pending && x != j
  {
    if pending == [] then []
    else
      var rest := Erase(pending[1..], j);
      assert pending == [pending[0]] + pending[1..];
      if pending[0] == j then rest else [pending[0]] + rest
  }

  // Callers

  /** A caller hands in a task; it is refused at once, or queued. */
  function Dispatched(s: System, deadline: nat, authoring: bool): System {
    var due := if deadline < s.deadline then deadline else s.deadline;
    if Stopping(s) || |s.pending| >= QUEUE_LIMIT || s.now >= due
    then s.(jobs := s.jobs + [Job(due, authoring, Canceled, false, Declined)])
    else s.(jobs := s.jobs + [Job(due, authoring, Pending, false, Waiting)], pending := s.pending + [|s.jobs|])
  }

  /** A caller gives up a task that is still pending. */
  function TimedOut(s: System, j: nat): System
    requires j < |s.jobs|
  {
    if s.jobs[j].state == Pending && s.jobs[j].caller == Waiting && s.now >= s.jobs[j].deadline
    then s.(jobs := s.jobs[j := s.jobs[j].(state := Canceled, caller := Declined)], pending := Erase(s.pending, j))
    else s
  }

  /** A caller returns once its task is no longer pending or running. */
  function Released(s: System, j: nat): System
    requires j < |s.jobs|
  {
    var job := s.jobs[j];
    if job.caller != Waiting then s
    else if job.state == Canceled then s.(jobs := s.jobs[j := job.(caller := Declined)])
    else if job.state == Completed then s.(jobs := s.jobs[j := job.(caller := if job.failed then Raised else Accepted)])
    else s
  }

  // The owner

  /** Expired tasks leave the front of the queue. */
  function Dropped(s: System): System
    requires forall k :: 0 <= k < |s.pending| ==> s.pending[k] < |s.jobs|
    decreases |s.pending|
  {
    if s.pending == [] || !(Stopping(s) || s.now >= s.jobs[s.pending[0]].deadline) then s
    else Dropped(s.(jobs := WithState(s.jobs, s.pending[0], Canceled), pending := s.pending[1..]))
  }

  /** The first task that may run now: authoring ones need a due tick that is not overloaded. */
  function Eligible(s: System, tick: bool, overloaded: bool, k: nat): (r: nat)
    requires k <= |s.pending| && forall i :: 0 <= i < |s.pending| ==> s.pending[i] < |s.jobs|
    ensures k <= r <= |s.pending|
    ensures r < |s.pending| ==> !s.jobs[s.pending[r]].authoring || (tick && !overloaded)
    ensures forall i :: k <= i < r ==> s.jobs[s.pending[i]].authoring && !(tick && !overloaded)
    decreases |s.pending| - k
  {
    if k == |s.pending| || !s.jobs[s.pending[k]].authoring || (tick && !overloaded) then k
    else Eligible(s, tick, overloaded, k + 1)
  }

  /** How many tasks at the front have expired. */
  function Overrun(stopping: bool, now: nat, deadlines: seq<nat>): (d: nat)
    ensures d <= |deadlines|
    ensures forall k :: 0 <= k < d ==> stopping || now >= deadlines[k]
    ensures d < |deadlines| ==> !stopping && now < deadlines[d]
  {
    if deadlines == [] || !(stopping || now >= deadlines[0]) then 0
    else
      assert forall k :: 1 <= k < |deadlines| ==> deadlines[k] == deadlines[1..][k - 1];
      1 + Overrun(stopping, now, deadlines[1..])
  }

  /** The place of the first task that may run now, or the number of tasks. */
  function FirstTimely(authoring: seq<bool>, tick: bool, overloaded: bool): (at: nat)
    ensures at <= |authoring|
    ensures at < |authoring| ==> Timely(authoring[at], tick, overloaded)
    ensures forall k :: 0 <= k < at ==> !Timely(authoring[k], tick, overloaded)
  {
    if authoring == [] || Timely(authoring[0], tick, overloaded) then 0
    else
      assert forall k :: 1 <= k < |authoring| ==> authoring[k] == authoring[1..][k - 1];
      1 + FirstTimely(authoring[1..], tick, overloaded)
  }

  function Deadlines(jobs: seq<Job>, pending: seq<nat>): (r: seq<nat>)
    requires forall k :: 0 <= k < |pending| ==> pending[k] < |jobs|
    ensures |r| == |pending|
  {
    seq(|pending|, k requires 0 <= k < |pending| => jobs[pending[k]].deadline)
  }

  function Kinds(jobs: seq<Job>, pending: seq<nat>): (r: seq<bool>)
    requires forall k :: 0 <= k < |pending| ==> pending[k] < |jobs|
    ensures |r| == |pending|
  {
    seq(|pending|, k requires 0 <= k < |pending| => jobs[pending[k]].authoring)
  }

  /** A task of this kind may run there. */
  predicate Timely(authoring: bool, tick: bool, overloaded: bool) {
    authoring ==> tick && !overloaded
  }

  /** What remains of a queue when `d` tasks have left its front and then the one at `at` has been taken. */
  function Remaining<T>(pending: seq<T>, d: nat, at: nat): seq<T>
    requires d <= |pending|
  {
    var left := pending[d..];
    if at < |left| then left[..at] + left[at + 1..] else left
  }

  /** Claims a task under the lock. */
  function Claimed(s: System, tick: bool, overloaded: bool): (System, Option<nat>)
    requires forall k :: 0 <= k < |s.pending| ==> s.pending[k] < |s.jobs|
  {
    var t := Dropped(s);
    DroppedIndexed(s);
    var at := Eligible(t, tick, overloaded, 0);
    if at == |t.pending| then (t, None)
    else (t.(jobs := WithState(t.jobs, t.pending[at], Running), pending := t.pending[..at] + t.pending[at + 1..]), Some(t.pending[at]))
  }

  lemma {:induction false} DroppedIndexed(s: System)
    requires forall k :: 0 <= k < |s.pending| ==> s.pending[k] < |s.jobs|
    ensures
      var t := Dropped(s);
      && |t.jobs| == |s.jobs| && (forall k :: 0 <= k < |t.pending| ==> t.pending[k] < |t.jobs|)
      && t == s.(jobs := t.jobs, pending := t.pending)
    decreases |s.pending|
  {
    if s.pending != [] && (Stopping(s) || s.now >= s.jobs[s.pending[0]].deadline) {
      DroppedIndexed(s.(jobs := WithState(s.jobs, s.pending[0], Canceled), pending := s.pending[1..]));
    }
  }

  /** A task runs outside the lock; an authoring one has its effect on the world. */
  function Executed(s: System, j: nat, tick: bool, overloaded: bool, throws: bool): System
    requires j < |s.jobs|
  {
    s.(jobs := s.jobs[j := s.jobs[j].(failed := throws)],
       runs := s.runs + [RunRecord(j, s.advances, tick, overloaded)],
       world := if s.jobs[j].authoring then s.world + [j] else s.world)
  }

  function Finished(s: System, done: Option<nat>): System
    requires done.Some? ==> done.value < |s.jobs|
  {
    if done.None? then s else s.(jobs := WithState(s.jobs, done.value, Completed))
  }

  function AllCanceled(jobs: seq<Job>, pending: seq<nat>): (r: seq<Job>)
    ensures |r| == |jobs|
  {
    seq(|jobs|, j requires 0 <= j < |jobs| => if j in pending then jobs[j].(state := Canceled) else jobs[j])
  }

  /** The running task, if any. */
  function Current(pc: Pc): Option<nat> {
    match pc
    case Ticking(_, _, done) => done
    case Working(_, _, j) => Some(j)
    case Publishing(_, _, done) => done
    case Finishing(done) => done
    case Serving(j) => Some(j)
    case Served(j) => Some(j)
    case Failing(done) => done
    case _ => None
  }

  predicate Indexed(s: System) {
    && (forall k :: 0 <= k < |s.pending| ==> s.pending[k] < |s.jobs|)
    && (Current(s.pc).Some? ==> Current(s.pc).value < |s.jobs|)
  }

  /** One step of the owner thread; `throws` makes what this step runs or publishes fail. */
  function OwnerStep(s: System, elapsed: nat, throws: bool): System
    requires Indexed(s)
  {
    match s.pc
    case Top =>
      if Stopping(s) then s.(pc := Closing)
      else
        var b := BatchOf(s.stats, elapsed);
        if !Countable(s.stats, b) then s.(pc := Failing(None))
        else s.(pc := Ticking(b, 0, None), advances := s.advances + 1)
    case Ticking(b, index, done) =>
      if index >= b.executed then s.(stats := Counted(s.stats, b), pc := Finishing(done))
      else if done.Some? then s.(pc := Publishing(b, index, done))
      else
        var (t, claimed) := Claimed(s, true, b.overloaded);
        t.(pc := if claimed.Some? then Working(b, index, claimed.value) else Publishing(b, index, None))
    case Working(b, index, j) => Executed(s, j, true, b.overloaded, throws).(pc := Publishing(b, index, Some(j)))
    case Publishing(b, index, done) =>
      if throws then s.(pc := Failing(done)) else s.(published := s.world, pc := Ticking(b, index + 1, done))
    case Finishing(done) => Finished(s, done).(pc := Polling)
    case Polling =>
      var (t, claimed) := Claimed(s, false, false);
      t.(pc := if claimed.Some? then Serving(claimed.value) else Top)
    case Serving(j) => Executed(s, j, false, false, throws).(pc := Served(j))
    case Served(j) => Finished(s, Some(j)).(pc := Top)
    case Failing(done) =>
      var t := if done.Some? then s.(jobs := s.jobs[done.value := s.jobs[done.value].(failed := true)]) else s;
      Finished(t, done).(stop := true, pc := Closing)
    case Closing => s.(jobs := AllCanceled(s.jobs, s.pending), pending := [], pc := Gone)
    case Gone => s
  }

  datatype Event =
    | Wait(ms: nat)
    | Stop
    | Dispatch(deadline: nat, authoring: bool)
    | TimeOut(job: nat)
    | Release(job: nat)
    | Step(elapsed: nat, throws: bool)

  function Next(s: System, event: Event): System
    requires Indexed(s)
  {
    match event
    case Wait(ms) => s.(now := s.now + ms)
    case Stop => s.(stop := true)
    case Dispatch(deadline, authoring) => Dispatched(s, deadline, authoring)
    case TimeOut(j) => if j < |s.jobs| then TimedOut(s, j) else s
    case Release(j) => if j < |s.jobs| then Released(s, j) else s
    case Step(elapsed, throws) => OwnerStep(s, elapsed, throws)
  }

  function Opened(deadline: nat): System {
    System(0, deadline, false, [], [], Top, Stats(0, 0, 0, 0), 0, [], [], [])
  }

  // What every interleaving keeps

  function RunsOf(runs: seq<RunRecord>, j: nat): nat {
    if runs == [] then 0 else RunsOf(runs[..|runs| - 1], j) + if runs[|runs| - 1].job == j then 1 else 0
  }

  /** The queue holds exactly the pending tasks, each once. */
  predicate QueueExact(jobs: seq<Job>, pending: seq<nat>) {
    && |pending| <= QUEUE_LIMIT
    && (forall k :: 0 <= k < |pending| ==> pending[k] < |jobs|)
    && (forall i, k :: 0 <= i < k < |pending| ==> pending[i] != pending[k])
    && forall j :: 0 <= j < |jobs| ==> (jobs[j].state == Pending <==> j in pending)
  }

  /** Only the owner's current task is running. */
  predicate RunningExact(jobs: seq<Job>, current: Option<nat>) {
    && (current.Some? ==> current.value < |jobs|)
    && forall j :: 0 <= j < |jobs| ==> (jobs[j].state == Running <==> current == Some(j))
  }

  /** The current task has not been executed yet. */
  predicate Starting(pc: Pc) {
    pc.Working? || pc.Serving?
  }

  predicate HasRun(job: Job, starting: bool) {
    job.state == Completed || (job.state == Running && !starting)
  }

  /** How often a task has run follows from its state. */
  predicate RunsExact(jobs: seq<Job>, runs: seq<RunRecord>, starting: bool) {
    && (forall k :: 0 <= k < |runs| ==> runs[k].job < |jobs|)
    && forall j :: 0 <= j < |jobs| ==> RunsOf(runs, j) == if HasRun(jobs[j], starting) then 1 else 0
  }

  predicate VerdictTrue(job: Job) {
    && (job.caller == Declined ==> job.state == Canceled)
    && (job.caller == Accepted ==> job.state == Completed && !job.failed)
    && (job.caller == Raised ==> job.state == Completed && job.failed)
  }

  /** Authoring tasks run only in a due tick that is not overloaded. */
  predicate RunsTimely(jobs: seq<Job>, runs: seq<RunRecord>) {
    forall k :: 0 <= k < |runs| ==> runs[k].job < |jobs| && Timely(jobs[runs[k].job].authoring, runs[k].tick, runs[k].overloaded)
  }

  /** So does a claimed task. */
  predicate ClaimTimely(jobs: seq<Job>, pc: Pc) {
    && (pc.Working? && pc.job < |jobs| ==> Timely(jobs[pc.job].authoring, true, pc.b.overloaded))
    && ((pc.Serving? || pc.Served?) && pc.job < |jobs| ==> !jobs[pc.job].authoring)
  }

  /** At most one task runs in the ticks of one advance. */
  predicate OnePerAdvance(runs: seq<RunRecord>, advances: nat, unused: bool) {
    && (forall i, k :: 0 <= i < k < |runs| && runs[i].tick && runs[k].tick ==> runs[i].advance != runs[k].advance)
    && forall k :: 0 <= k < |runs| && runs[k].tick ==> runs[k].advance <= advances && (unused ==> runs[k].advance < advances)
  }

  /** Nothing has run in the current advance. */
  predicate Unused(pc: Pc) {
    pc.Working? || (pc.Ticking? && pc.done.None?) || (pc.Publishing? && pc.done.None?)
  }

  /** The snapshot has the effect of every completed authoring task that did not fail. */
  predicate PublishedExact(jobs: seq<Job>, world: seq<nat>, published: seq<nat>) {
    && published <= world
    && forall j :: 0 <= j < |jobs| && jobs[j].authoring && jobs[j].state == Completed && !jobs[j].failed ==> j in published
  }

  /** A task just executed: in the world, and published before it is finished. */
  predicate DonePublished(jobs: seq<Job>, world: seq<nat>, published: seq<nat>, pc: Pc) {
    && (pc.Publishing? && pc.done.Some? && pc.done.value < |jobs| && jobs[pc.done.value].authoring ==> pc.done.value in world)
    && ((pc.Ticking? || pc.Finishing?) && pc.done.Some? && pc.done.value < |jobs| && jobs[pc.done.value].authoring ==> pc.done.value in published)
  }

  predicate Ending(stopping: bool, pending: seq<nat>, pc: Pc) {
    (pc.Closing? || pc.Gone? ==> stopping) && (pc.Gone? ==> pending == [])
  }

  predicate VerdictsTrue(jobs: seq<Job>) {
    forall j :: 0 <= j < |jobs| ==> VerdictTrue(jobs[j])
  }

  predicate Keeps(s: System) {
    && QueueExact(s.jobs, s.pending) && RunningExact(s.jobs, Current(s.pc)) && RunsExact(s.jobs, s.runs, Starting(s.pc))
    && RunsTimely(s.jobs, s.runs) && ClaimTimely(s.jobs, s.pc) && OnePerAdvance(s.runs, s.advances, Unused(s.pc))
    && PublishedExact(s.jobs, s.world, s.published) && DonePublished(s.jobs, s.world, s.published, s.pc)
    && Ending(Stopping(s), s.pending, s.pc) && VerdictsTrue(s.jobs)
  }

  lemma KeepsIndexed(s: System)
    requires QueueExact(s.jobs, s.pending) && RunningExact(s.jobs, Current(s.pc))
    ensures Indexed(s)
  {
  }

  lemma OpenedKeeps(deadline: nat)
    ensures Keeps(Opened(deadline))
  {
  }

  // What changes of the jobs leave alone

  /** The same task, as far as running it goes. */
  predicate SameTask(a: Job, b: Job) {
    a.authoring == b.authoring && a.failed == b.failed && (a.state == Completed <==> b.state == Completed)
  }

  predicate SameTasks(jobs: seq<Job>, jobs': seq<Job>) {
    |jobs'| == |jobs| && forall j :: 0 <= j < |jobs| ==> SameTask(jobs[j], jobs'[j])
  }

  lemma TasksFrame(jobs: seq<Job>, jobs': seq<Job>, runs: seq<RunRecord>, world: seq<nat>, published: seq<nat>, pc: Pc)
    requires SameTasks(jobs, jobs')
    ensures RunsTimely(jobs, runs) ==> RunsTimely(jobs', runs)
    ensures PublishedExact(jobs, world, published) ==> PublishedExact(jobs', world, published)
    ensures DonePublished(jobs, world, published, pc) ==> DonePublished(jobs', world, published, pc)
    ensures ClaimTimely(jobs, pc) ==> ClaimTimely(jobs', pc)
  {
    assert forall j :: 0 <= j < |jobs| ==> SameTask(jobs[j], jobs'[j]);
  }

  lemma RunsFrame(jobs: seq<Job>, jobs': seq<Job>, runs: seq<RunRecord>, starting: bool, starting': bool)
    requires RunsExact(jobs, runs, starting) && |jobs'| == |jobs|
    requires forall j :: 0 <= j < |jobs| ==> HasRun(jobs[j], starting) == HasRun(jobs'[j], starting')
    ensures RunsExact(jobs', runs, starting')
  {
    hide RunsOf, HasRun;
  }

  // Callers keep it

  lemma {:induction false} NoRuns(runs: seq<RunRecord>, j: nat)
    requires forall k :: 0 <= k < |runs| ==> runs[k].job != j
    ensures RunsOf(runs, j) == 0
  {
    if runs != [] {
      NoRuns(runs[..|runs| - 1], j);
    }
  }

  lemma DispatchKeeps(s: System, deadline: nat, authoring: bool)
    requires Keeps(s)
    ensures Keeps(Dispatched(s, deadline, authoring))
  {
    var t, n := Dispatched(s, deadline, authoring), |s.jobs|;
    NewJob(s.jobs, t.jobs, s.runs, s.world, s.published, s.pc);
    hide RunsTimely, ClaimTimely, RunsExact, PublishedExact, DonePublished;
    assert n !in s.pending;
  }

  lemma NewJob(jobs: seq<Job>, jobs': seq<Job>, runs: seq<RunRecord>, world: seq<nat>, published: seq<nat>, pc: Pc)
    requires |jobs'| == |jobs| + 1 && jobs < jobs'
    requires jobs'[|jobs|].state == Pending || jobs'[|jobs|].state == Canceled
    requires Current(pc).Some? ==> Current(pc).value < |jobs|
    ensures RunsExact(jobs, runs, Starting(pc)) ==> RunsExact(jobs', runs, Starting(pc))
    ensures RunsTimely(jobs, runs) ==> RunsTimely(jobs', runs)
    ensures PublishedExact(jobs, world, published) ==> PublishedExact(jobs', world, published)
    ensures DonePublished(jobs, world, published, pc) ==> DonePublished(jobs', world, published, pc)
    ensures ClaimTimely(jobs, pc) ==> ClaimTimely(jobs', pc)
  {
    hide RunsOf;
    assert forall j :: 0 <= j < |jobs| ==> jobs'[j] == jobs[j];
    if RunsExact(jobs, runs, Starting(pc)) {
      NoRuns(runs, |jobs|);
    }
  }

  lemma {:induction false} EraseDistinct(pending: seq<nat>, j: nat)
    requires forall i, k :: 0 <= i < k < |pending| ==> pending[i] != pending[k]
    ensures forall i, k :: 0 <= i < k < |Erase(pending, j)| ==> Erase(pending, j)[i] != Erase(pending, j)[k]
  {
    if pending != [] {
      EraseDistinct(pending[1..], j);
      forall k | 0 <= k < |pending| - 1
        ensures pending[1..][k] != pending[0]
      {
        assert pending[k + 1] == pending[1..][k];
      }
      var rest := Erase(pending[1..], j);
      assert pending[0] !in rest;
      assert forall k :: 0 <= k < |rest| ==> rest[k] in rest;
    }
  }

  lemma TimeOutKeeps(s: System, j: nat)
    requires Keeps(s) && j < |s.jobs|
    ensures Keeps(TimedOut(s, j))
  {
    hide RunsOf, Erase;
    var t := TimedOut(s, j);
    TasksFrame(s.jobs, t.jobs, s.runs, s.world, s.published, s.pc);
    RunsFrame(s.jobs, t.jobs, s.runs, Starting(s.pc), Starting(s.pc));
    hide RunsTimely, ClaimTimely, RunsExact, PublishedExact, DonePublished, OnePerAdvance;
    EraseDistinct(s.pending, j);
    assert forall i :: 0 <= i < |t.pending| ==> t.pending[i] in t.pending && t.pending[i] in s.pending;
  }

  lemma ReleaseKeeps(s: System, j: nat)
    requires Keeps(s) && j < |s.jobs|
    ensures Keeps(Released(s, j))
  {
    hide RunsOf, QueueExact, RunningExact, VerdictsTrue;
    var t := Released(s, j);
    TasksFrame(s.jobs, t.jobs, s.runs, s.world, s.published, s.pc);
    RunsFrame(s.jobs, t.jobs, s.runs, Starting(s.pc), Starting(s.pc));
    ReleasedStates(s, j);
    hide RunsTimely, ClaimTimely, RunsExact, PublishedExact, DonePublished, OnePerAdvance;
  }

  lemma ReleasedStates(s: System, j: nat)
    requires QueueExact(s.jobs, s.pending) && RunningExact(s.jobs, Current(s.pc)) && VerdictsTrue(s.jobs) && j < |s.jobs|
    ensures
      var t := Released(s, j);
      QueueExact(t.jobs, t.pending) && RunningExact(t.jobs, Current(t.pc)) && VerdictsTrue(t.jobs)
  {
  }

  // The owner keeps it

  /** `b` is the pending task `a`, or has been canceled. */
  predicate MayCancel(a: Job, b: Job) {
    b == a || (a.state == Pending && b == a.(state := Canceled))
  }

  /** Dropping keeps the queue exact, and touches pending tasks only. */
  lemma {:induction false} DroppedExact(s: System)
    requires QueueExact(s.jobs, s.pending)
    ensures
      var t := Dropped(s);
      && QueueExact(t.jobs, t.pending) && t == s.(jobs := t.jobs, pending := t.pending) && |t.jobs| == |s.jobs|
      && forall j :: 0 <= j < |s.jobs| ==> MayCancel(s.jobs[j], t.jobs[j])
    decreases |s.pending|
  {
    if s.pending != [] && (Stopping(s) || s.now >= s.jobs[s.pending[0]].deadline) {
      var head, rest := s.pending[0], s.pending[1..];
      var u := s.(jobs := WithState(s.jobs, head, Canceled), pending := rest);
      HeadCanceled(s.jobs, s.pending);
      DroppedExact(u);
      forall j | 0 <= j < |s.jobs|
        ensures MayCancel(s.jobs[j], Dropped(s).jobs[j])
      {
        assert MayCancel(s.jobs[j], u.jobs[j]) && MayCancel(u.jobs[j], Dropped(u).jobs[j]);
      }
    }
  }

  lemma HeadCanceled(jobs: seq<Job>, pending: seq<nat>)
    requires QueueExact(jobs, pending) && pending != []
    ensures QueueExact(WithState(jobs, pending[0], Canceled), pending[1..])
    ensures forall j :: 0 <= j < |jobs| ==> MayCancel(jobs[j], WithState(jobs, pending[0], Canceled)[j])
  {
    var head, rest := pending[0], pending[1..];
    assert head in pending;
    assert pending == [head] + rest;
    assert forall k :: 0 <= k < |rest| ==> rest[k] == pending[k + 1];
  }

  lemma TakenOut(jobs: seq<Job>, pending: seq<nat>, at: nat)
    requires QueueExact(jobs, pending) && at < |pending|
    ensures QueueExact(WithState(jobs, pending[at], Running), pending[..at] + pending[at + 1..])
  {
    var j, rest := pending[at], pending[..at] + pending[at + 1..];
    assert forall k :: 0 <= k < |rest| ==> rest[k] == if k < at then pending[k] else pending[k + 1];
    assert j in pending;
    forall x | x in pending && x != j
      ensures x in rest
    {
      var k :| 0 <= k < |pending| && pending[k] == x;
      assert k < at ==> rest[k] == x;
      assert k > at ==> rest[k - 1] == x;
    }
  }

  /** A claim keeps the queue exact, and starts only a pending task that may run now. */
  lemma ClaimExact(s: System, tick: bool, overloaded: bool)
    requires QueueExact(s.jobs, s.pending)
    ensures
      var (t, claimed) := Claimed(s, tick, overloaded);
      && QueueExact(t.jobs, t.pending) && t == s.(jobs := t.jobs, pending := t.pending) && |t.jobs| == |s.jobs|
      && (claimed.Some? ==>
            && claimed.value < |s.jobs| && s.jobs[claimed.value].state == Pending
            && t.jobs[claimed.value] == s.jobs[claimed.value].(state := Running)
            && Timely(s.jobs[claimed.value].authoring, tick, overloaded))
      && forall j :: 0 <= j < |s.jobs| && claimed != Some(j) ==> MayCancel(s.jobs[j], t.jobs[j])
  {
    hide Dropped;
    DroppedExact(s);
    var u := Dropped(s);
    var at := Eligible(u, tick, overloaded, 0);
    if at < |u.pending| {
      TakenOut(u.jobs, u.pending, at);
      assert u.pending[at] in u.pending;
      assert MayCancel(s.jobs[u.pending[at]], u.jobs[u.pending[at]]);
    }
  }

  /** The tasks named in `front` are cancelled, and nothing else happens. */
  predicate FrontCanceled(jobs: seq<Job>, jobs': seq<Job>, front: seq<nat>) {
    && |jobs'| == |jobs|
    && forall j :: 0 <= j < |jobs| ==> jobs'[j] == if j in front then jobs[j].(state := Canceled) else jobs[j]
  }

  lemma FrontMore(jobs: seq<Job>, jobs': seq<Job>, head: nat, front: seq<nat>)
    requires head < |jobs| && FrontCanceled(WithState(jobs, head, Canceled), jobs', front)
    ensures FrontCanceled(jobs, jobs', [head] + front)
  {
    assert forall j: nat :: j in [head] + front <==> j == head || j in front;
  }

  lemma NoFront(jobs: seq<Job>)
    ensures FrontCanceled(jobs, jobs, [])
  {
  }

  /** Dropping takes the expired tasks at the front, and no others, and cancels exactly those. */
  lemma {:induction false} DroppedFront(s: System)
    requires forall k :: 0 <= k < |s.pending| ==> s.pending[k] < |s.jobs|
    ensures
      var (t, d) := (Dropped(s), Overrun(Stopping(s), s.now, Deadlines(s.jobs, s.pending)));
      && t == s.(jobs := t.jobs, pending := s.pending[d..]) && FrontCanceled(s.jobs, t.jobs, s.pending[..d])
    decreases |s.pending|
  {
    hide FrontCanceled, Dropped, Overrun, Deadlines, WithState;
    if s.pending != [] && (Stopping(s) || s.now >= s.jobs[s.pending[0]].deadline) {
      var head, rest := s.pending[0], s.pending[1..];
      DroppedStep(s);
      var u := s.(jobs := WithState(s.jobs, head, Canceled), pending := rest);
      DroppedFront(u);
      var d := Overrun(Stopping(s), s.now, Deadlines(u.jobs, rest));
      assert rest[d..] == s.pending[d + 1..];
      assert s.pending[..d + 1] == [head] + rest[..d];
      FrontMore(s.jobs, Dropped(u).jobs, head, rest[..d]);
    } else {
      DroppedNone(s);
      NoFront(s.jobs);
      assert s.pending[0..] == s.pending && s.pending[..0] == [];
    }
  }

  lemma {:induction false} DroppedStep(s: System)
    requires s.pending != [] && (forall k :: 0 <= k < |s.pending| ==> s.pending[k] < |s.jobs|)
    requires Stopping(s) || s.now >= s.jobs[s.pending[0]].deadline
    ensures
      var u := s.(jobs := WithState(s.jobs, s.pending[0], Canceled), pending := s.pending[1..]);
      && Dropped(s) == Dropped(u)
      && Overrun(Stopping(s), s.now, Deadlines(s.jobs, s.pending)) == 1 + Overrun(Stopping(s), s.now, Deadlines(u.jobs, u.pending))
  {
    assert Deadlines(WithState(s.jobs, s.pending[0], Canceled), s.pending[1..]) == Deadlines(s.jobs, s.pending)[1..];
  }

  lemma {:induction false} DroppedNone(s: System)
    requires forall k :: 0 <= k < |s.pending| ==> s.pending[k] < |s.jobs|
    requires s.pending == [] || !(Stopping(s) || s.now >= s.jobs[s.pending[0]].deadline)
    ensures Dropped(s) == s && Overrun(Stopping(s), s.now, Deadlines(s.jobs, s.pending)) == 0
  {
  }

  /** The tasks in `front` are cancelled, the claimed one starts running, and nothing else happens. */
  predicate ClaimEffect(jobs: seq<Job>, jobs': seq<Job>, front: seq<nat>, claimed: Option<nat>) {
    && |jobs'| == |jobs|
    && forall j :: 0 <= j < |jobs| ==>
         jobs'[j] == if j in front then jobs[j].(state := Canceled)
                     else if claimed == Some(j) then jobs[j].(state := Running)
                     else jobs[j]
  }

  /** A claim, exactly: the expired tasks at the front are cancelled, the first of the others that may run now
      starts running, and nothing else happens to any task. */
  lemma {:induction false} ClaimDetermined(s: System, tick: bool, overloaded: bool)
    requires QueueExact(s.jobs, s.pending)
    ensures forall k :: 0 <= k < |s.pending| ==> s.pending[k] < |s.jobs|
    ensures
      var (t, claimed) := Claimed(s, tick, overloaded);
      var d := Overrun(Stopping(s), s.now, Deadlines(s.jobs, s.pending));
      var at := FirstTimely(Kinds(s.jobs, s.pending)[d..], tick, overloaded);
      && claimed == (if d + at < |s.pending| then Some(s.pending[d + at]) else None)
      && t == s.(jobs := t.jobs, pending := Remaining(s.pending, d, at))
      && ClaimEffect(s.jobs, t.jobs, s.pending[..d], claimed)
  {
    DistinctParts(s.pending, Overrun(Stopping(s), s.now, Deadlines(s.jobs, s.pending)));
    hide QueueExact, Claimed, Dropped, Overrun, FirstTimely, Eligible, Deadlines, Kinds, WithState, FrontCanceled, ClaimEffect, Remaining, Stopping;
    QueueIndexed(s.jobs, s.pending);
    DroppedFront(s);
    var u, d := Dropped(s), Overrun(Stopping(s), s.now, Deadlines(s.jobs, s.pending));
    FrontKinds(s.jobs, u.jobs, s.pending, d);
    ClaimTaken(s, tick, overloaded);
    var at := FirstTimely(Kinds(u.jobs, u.pending), tick, overloaded);
    RemainingLater(s.pending, d, at);
    if at < |u.pending| {
      FrontThenTaken(s.jobs, u.jobs, s.pending[..d], s.pending[d + at]);
    } else {
      FrontOnly(s.jobs, u.jobs, s.pending[..d]);
    }
  }

  lemma {:induction false} ClaimTaken(s: System, tick: bool, overloaded: bool)
    requires (forall k :: 0 <= k < |s.pending| ==> s.pending[k] < |s.jobs|)
    requires forall k :: 0 <= k < |Dropped(s).pending| ==> Dropped(s).pending[k] < |Dropped(s).jobs|
    ensures
      var u := Dropped(s);
      var at := FirstTimely(Kinds(u.jobs, u.pending), tick, overloaded);
      Claimed(s, tick, overloaded) ==
        if at == |u.pending| then (u.(pending := Remaining(u.pending, 0, at)), None)
        else (u.(jobs := WithState(u.jobs, u.pending[at], Running), pending := Remaining(u.pending, 0, at)), Some(u.pending[at]))
  {
    hide Dropped, FirstTimely, Eligible, Kinds, WithState;
    assert Dropped(s).pending[0..] == Dropped(s).pending;
    var u := Dropped(s);
    EligibleFirst(u, tick, overloaded, 0);
    assert Kinds(u.jobs, u.pending)[0..] == Kinds(u.jobs, u.pending);
  }

  lemma RemainingLater<T>(pending: seq<T>, d: nat, at: nat)
    requires d <= |pending|
    ensures Remaining(pending, d, at) == Remaining(pending[d..], 0, at)
  {
    assert pending[d..][0..] == pending[d..];
  }

  lemma FrontThenTaken(jobs: seq<Job>, jobs': seq<Job>, front: seq<nat>, j: nat)
    requires FrontCanceled(jobs, jobs', front) && j < |jobs| && j !in front
    ensures ClaimEffect(jobs, WithState(jobs', j, Running), front, Some(j))
  {
  }

  lemma FrontOnly(jobs: seq<Job>, jobs': seq<Job>, front: seq<nat>)
    requires FrontCanceled(jobs, jobs', front)
    ensures ClaimEffect(jobs, jobs', front, None)
  {
  }

  lemma QueueIndexed(jobs: seq<Job>, pending: seq<nat>)
    requires QueueExact(jobs, pending)
    ensures forall k :: 0 <= k < |pending| ==> pending[k] < |jobs|
  {
  }

  lemma FrontKinds(jobs: seq<Job>, jobs': seq<Job>, pending: seq<nat>, d: nat)
    requires d <= |pending| && FrontCanceled(jobs, jobs', pending[..d]) && forall k :: 0 <= k < |pending| ==> pending[k] < |jobs|
    ensures Kinds(jobs', pending[d..]) == Kinds(jobs, pending)[d..]
  {
  }

  lemma DistinctParts(pending: seq<nat>, d: nat)
    requires d <= |pending| && forall i, k :: 0 <= i < k < |pending| ==> pending[i] != pending[k]
    ensures forall k :: d <= k < |pending| ==> pending[k] !in pending[..d]
  {
  }

  lemma {:induction false} EligibleFirst(s: System, tick: bool, overloaded: bool, k: nat)
    requires k <= |s.pending| && forall i :: 0 <= i < |s.pending| ==> s.pending[i] < |s.jobs|
    ensures Eligible(s, tick, overloaded, k) == k + FirstTimely(Kinds(s.jobs, s.pending)[k..], tick, overloaded)
    decreases |s.pending| - k
  {
    var kinds := Kinds(s.jobs, s.pending)[k..];
    if k < |s.pending| && !Timely(kinds[0], tick, overloaded) {
      EligibleFirst(s, tick, overloaded, k + 1);
      assert kinds[1..] == Kinds(s.jobs, s.pending)[k + 1..];
    }
  }

  lemma ClaimKeeps(s: System, tick: bool, overloaded: bool, pc: Pc)
    requires Keeps(s) && Current(s.pc).None? && !s.pc.Closing? && !s.pc.Gone?
    requires
      var (t, claimed) := Claimed(s, tick, overloaded);
      && Current(pc) == claimed && (claimed.Some? <==> Starting(pc)) && !pc.Closing? && !pc.Gone?
      && (if tick then pc.Working? || pc.Publishing? else pc.Serving? || pc.Top?)
      && (pc.Working? ==> pc.b.overloaded == overloaded)
      && (Unused(pc) ==> Unused(s.pc))
    ensures
      var (t, claimed) := Claimed(s, tick, overloaded);
      Keeps(t.(pc := pc))
  {
    hide Claimed, RunsOf;
    ClaimExact(s, tick, overloaded);
    var (t, claimed) := Claimed(s, tick, overloaded);
    TasksFrame(s.jobs, t.jobs, s.runs, s.world, s.published, s.pc);
    RunsFrame(s.jobs, t.jobs, s.runs, Starting(s.pc), Starting(pc));
    hide RunsTimely, RunsExact, PublishedExact, QueueExact;
  }

  lemma {:induction false} RunsMore(runs: seq<RunRecord>, r: RunRecord, j: nat)
    ensures RunsOf(runs + [r], j) == RunsOf(runs, j) + if r.job == j then 1 else 0
  {
    assert (runs + [r])[..|runs|] == runs;
  }

  /** After executing the claimed task. */
  function Past(pc: Pc): Pc
    requires Starting(pc)
  {
    if pc.Working? then Publishing(pc.b, pc.index, Some(pc.job)) else Served(pc.job)
  }

  lemma RunRecorded(jobs: seq<Job>, jobs': seq<Job>, runs: seq<RunRecord>, r: RunRecord)
    requires RunsExact(jobs, runs, true) && RunningExact(jobs, Some(r.job)) && SameStates(jobs, jobs')
    ensures RunsExact(jobs', runs + [r], false)
  {
    hide RunsOf;
    forall i | 0 <= i < |jobs|
      ensures RunsOf(runs + [r], i) == RunsOf(runs, i) + if i == r.job then 1 else 0
    {
      RunsMore(runs, r, i);
    }
  }

  predicate SameStates(jobs: seq<Job>, jobs': seq<Job>) {
    |jobs'| == |jobs| && forall j :: 0 <= j < |jobs| ==> jobs'[j].state == jobs[j].state && jobs'[j].authoring == jobs[j].authoring
  }

  lemma TimelyMore(jobs: seq<Job>, jobs': seq<Job>, runs: seq<RunRecord>, r: RunRecord)
    requires RunsTimely(jobs, runs) && SameStates(jobs, jobs') && r.job < |jobs| && Timely(jobs[r.job].authoring, r.tick, r.overloaded)
    ensures RunsTimely(jobs', runs + [r])
  {
  }

  lemma ExecuteKeeps(s: System, throws: bool)
    requires Keeps(s) && Starting(s.pc)
    ensures s.pc.job < |s.jobs|
    ensures Keeps(Executed(s, s.pc.job, s.pc.Working?, s.pc.Working? && s.pc.b.overloaded, throws).(pc := Past(s.pc)))
  {
    hide RunsOf;
    var j := s.pc.job;
    var r := RunRecord(j, s.advances, s.pc.Working?, s.pc.Working? && s.pc.b.overloaded);
    var t := Executed(s, j, s.pc.Working?, s.pc.Working? && s.pc.b.overloaded, throws);
    RunRecorded(s.jobs, t.jobs, s.runs, r);
    TimelyMore(s.jobs, t.jobs, s.runs, r);
    assert s.jobs[j].authoring ==> t.world[|s.world|] == j;
    hide RunsTimely, RunsExact;
    assert t.pending == s.pending && SameStates(s.jobs, t.jobs);
  }

  lemma FinishKeeps(s: System)
    requires Keeps(s) && (s.pc.Finishing? || s.pc.Served?)
    ensures Indexed(s) && Keeps(OwnerStep(s, 0, false))
  {
    hide RunsOf;
    KeepsIndexed(s);
    var t := OwnerStep(s, 0, false);
    RunsFrame(s.jobs, t.jobs, s.runs, false, false);
    hide RunsExact;
  }

  lemma FailKeeps(s: System)
    requires Keeps(s) && s.pc.Failing?
    ensures Indexed(s) && Keeps(OwnerStep(s, 0, false))
  {
    hide RunsOf;
    KeepsIndexed(s);
    var t := OwnerStep(s, 0, false);
    RunsFrame(s.jobs, t.jobs, s.runs, false, false);
    hide RunsExact;
  }

  lemma CloseKeeps(s: System)
    requires Keeps(s) && s.pc.Closing?
    ensures Indexed(s) && Keeps(OwnerStep(s, 0, false))
  {
    hide RunsOf;
    KeepsIndexed(s);
    var t := OwnerStep(s, 0, false);
    TasksFrame(s.jobs, t.jobs, s.runs, s.world, s.published, s.pc);
    RunsFrame(s.jobs, t.jobs, s.runs, false, false);
    hide RunsExact, RunsTimely, PublishedExact;
  }

  /** Steps that move only the program counter, the clock or the publication. */
  lemma QuietKeeps(s: System, elapsed: nat, throws: bool)
    requires Keeps(s)
    requires s.pc.Top? || s.pc.Publishing? || s.pc.Gone? || (s.pc.Ticking? && (s.pc.index >= s.pc.b.executed || s.pc.done.Some?))
    ensures Indexed(s) && Keeps(OwnerStep(s, elapsed, throws))
  {
    hide RunsOf, BatchOf, Countable, Counted, RunsExact, RunsTimely, Claimed;
    KeepsIndexed(s);
    hide QueueExact, RunningExact, VerdictsTrue;
  }

  lemma OwnerKeeps(s: System, elapsed: nat, throws: bool)
    requires Keeps(s)
    ensures Indexed(s) && Keeps(OwnerStep(s, elapsed, throws))
  {
    hide Keeps, QueueExact, RunningExact, Claimed, Executed, Finished;
    KeepsParts(s);
    KeepsIndexed(s);
    match s.pc
    case Working(_, _, _) => ExecuteKeeps(s, throws);
    case Serving(_) => ExecuteKeeps(s, throws);
    case Finishing(_) => FinishKeeps(s);
    case Served(_) => FinishKeeps(s);
    case Failing(_) => FailKeeps(s);
    case Closing => CloseKeeps(s);
    case Polling =>
      var (t, claimed) := Claimed(s, false, false);
      ClaimKeeps(s, false, false, if claimed.Some? then Serving(claimed.value) else Top);
    case Ticking(b, index, done) =>
      if index >= b.executed || done.Some? {
        QuietKeeps(s, elapsed, throws);
      } else {
        var (t, claimed) := Claimed(s, true, b.overloaded);
        ClaimKeeps(s, true, b.overloaded, if claimed.Some? then Working(b, index, claimed.value) else Publishing(b, index, None));
      }
    case _ => QuietKeeps(s, elapsed, throws);
  }

  lemma KeepsParts(s: System)
    requires Keeps(s)
    ensures QueueExact(s.jobs, s.pending) && RunningExact(s.jobs, Current(s.pc))
  {
  }

  lemma NextKeeps(s: System, event: Event)
    requires Keeps(s)
    ensures Indexed(s) && Keeps(Next(s, event))
  {
    hide RunsOf, OwnerStep, Dispatched, TimedOut, Released;
    KeepsIndexed(s);
    match event
    case Dispatch(deadline, authoring) => DispatchKeeps(s, deadline, authoring);
    case TimeOut(j) =>
      if j < |s.jobs| {
        TimeOutKeeps(s, j);
      }
    case Release(j) =>
      if j < |s.jobs| {
        ReleaseKeeps(s, j);
      }
    case Step(elapsed, throws) => OwnerKeeps(s, elapsed, throws);
    case _ =>
  }

  ghost predicate Run(deadline: nat, states: seq<System>, events: seq<Event>) {
    && |states| == |events| + 1 && states[0] == Opened(deadline)
    && forall k :: 0 <= k < |events| ==> Indexed(states[k]) && states[k + 1] == Next(states[k], events[k])
  }

  lemma {:induction false} RunKeeps(deadline: nat, states: seq<System>, events: seq<Event>, n: nat)
    requires Run(deadline, states, events) && n <= |events|
    ensures Keeps(states[n])
  {
    hide Next, Keeps, Indexed;
    if n == 0 {
      OpenedKeeps(deadline);
    } else {
      RunKeeps(deadline, states, events, n - 1);
      NextKeeps(states[n - 1], events[n - 1]);
    }
  }

  /** What has been decided about a task stays. */
  predicate Decided(a: Job, b: Job) {
    && (a.state == Canceled || a.state == Completed ==> b.state == a.state && b.failed == a.failed)
    && (a.caller != Waiting ==> b.caller == a.caller)
  }

  lemma ClaimDecided(s: System, tick: bool, overloaded: bool, j: nat)
    requires Keeps(s) && j < |s.jobs|
    ensures |Claimed(s, tick, overloaded).0.jobs| == |s.jobs| && Decided(s.jobs[j], Claimed(s, tick, overloaded).0.jobs[j])
  {
    hide RunsOf, Claimed, RunsExact, RunsTimely, PublishedExact, OnePerAdvance;
    ClaimExact(s, tick, overloaded);
    assert Claimed(s, tick, overloaded).1 != Some(j) ==> MayCancel(s.jobs[j], Claimed(s, tick, overloaded).0.jobs[j]);
  }

  lemma OwnerDecided(s: System, elapsed: nat, throws: bool, j: nat)
    requires Keeps(s) && j < |s.jobs|
    ensures Indexed(s) && |OwnerStep(s, elapsed, throws).jobs| == |s.jobs|
    ensures Decided(s.jobs[j], OwnerStep(s, elapsed, throws).jobs[j])
  {
    KeepsIndexed(s);
    CurrentRuns(s);
    if s.pc.Polling? || s.pc.Ticking? {
      ClaimStepDecided(s, elapsed, throws, j);
    } else {
      hide RunsOf, Claimed, Keeps, BatchOf, Countable, Counted;
    }
  }

  lemma ClaimStepDecided(s: System, elapsed: nat, throws: bool, j: nat)
    requires Keeps(s) && j < |s.jobs| && Indexed(s) && (s.pc.Polling? || s.pc.Ticking?)
    ensures |OwnerStep(s, elapsed, throws).jobs| == |s.jobs|
    ensures Decided(s.jobs[j], OwnerStep(s, elapsed, throws).jobs[j])
  {
    hide Claimed, Keeps, Counted;
    if s.pc.Polling? {
      ClaimDecided(s, false, false, j);
    } else {
      ClaimDecided(s, true, s.pc.b.overloaded, j);
    }
  }

  lemma CurrentRuns(s: System)
    requires Keeps(s)
    ensures Current(s.pc).Some? ==> Current(s.pc).value < |s.jobs| && s.jobs[Current(s.pc).value].state == Running
    ensures forall j :: 0 <= j < |s.jobs| && j in s.pending ==> s.jobs[j].state == Pending
  {
    hide RunsOf, RunsExact, RunsTimely, PublishedExact, OnePerAdvance;
  }

  /** What a caller was told, and a task that was canceled or completed, never changes. */
  lemma DecidedStays(s: System, event: Event, j: nat)
    requires Keeps(s) && j < |s.jobs|
    ensures Indexed(s) && j < |Next(s, event).jobs| && Decided(s.jobs[j], Next(s, event).jobs[j])
  {
    hide OwnerStep, Keeps;
    match event
    case Step(elapsed, throws) => OwnerDecided(s, elapsed, throws, j);
    case _ => KeptIndexed(s);
  }

  lemma KeptIndexed(s: System)
    requires Keeps(s)
    ensures Indexed(s)
  {
    hide QueueExact, RunningExact, RunsExact, RunsTimely, PublishedExact, OnePerAdvance;
    KeepsIndexed(s);
  }

  lemma {:induction false} DecidedForGood(deadline: nat, states: seq<System>, events: seq<Event>, m: nat, n: nat, j: nat)
    requires Run(deadline, states, events) && m <= n <= |events| && j < |states[m].jobs|
    ensures j < |states[n].jobs|
    ensures
      var (a, b) := (states[m].jobs[j], states[n].jobs[j]);
      && (a.state == Canceled || a.state == Completed ==> b.state == a.state && b.failed == a.failed)
      && (a.caller != Waiting ==> b.caller == a.caller)
    decreases n
  {
    hide Next, Keeps, Indexed;
    if m < n {
      DecidedForGood(deadline, states, events, m, n - 1, j);
      RunKeeps(deadline, states, events, n - 1);
      DecidedStays(states[n - 1], events[n - 1], j);
    }
  }

  /** In every interleaving: a caller is told false only for a task that has not run and never will; true only for one that
      ran exactly once to its end, and whose effect is already published; and authoring tasks run only in a due tick of
      an advance that is not overloaded, at most one task per advance. */
  lemma {:induction false} DispatchTruthful(deadline: nat, states: seq<System>, events: seq<Event>, m: nat, n: nat, j: nat)
    requires Run(deadline, states, events) && m <= n <= |events| && j < |states[m].jobs|
    ensures j < |states[n].jobs|
    ensures states[m].jobs[j].caller == Declined ==> RunsOf(states[n].runs, j) == 0
    ensures states[m].jobs[j].caller == Accepted ==> RunsOf(states[m].runs, j) == 1 == RunsOf(states[n].runs, j)
    ensures states[m].jobs[j].caller == Accepted && states[m].jobs[j].authoring ==> j in states[m].published
    ensures forall k :: 0 <= k < |states[n].runs| ==> states[n].runs[k].job < |states[n].jobs|
    ensures forall k :: 0 <= k < |states[n].runs| && states[n].jobs[states[n].runs[k].job].authoring ==>
      states[n].runs[k].tick && !states[n].runs[k].overloaded
    ensures forall i, k :: 0 <= i < k < |states[n].runs| && states[n].runs[i].tick && states[n].runs[k].tick ==>
      states[n].runs[i].advance != states[n].runs[k].advance
  {
    hide Run, Next, RunsOf, QueueExact, RunningExact, Ending;
    DecidedForGood(deadline, states, events, m, n, j);
    RunSize(deadline, states, events);
    RunKeeps(deadline, states, events, m);
    RunKeeps(deadline, states, events, n);
    assert VerdictTrue(states[m].jobs[j]);
  }

  lemma RunSize(deadline: nat, states: seq<System>, events: seq<Event>)
    requires Run(deadline, states, events)
    ensures |states| == |events| + 1
  {
  }

  /** An authoring task queued before a reader whose deadline passes. */
  function LateEvents(): seq<Event> {
    [Dispatch(100, true), Dispatch(5, false), Wait(10), Step(0, false), Step(0, false), Step(0, false)]
  }

  function LateStates(): seq<System> {
    var jobs := [Job(100, true, Pending, false, Waiting), Job(5, false, Pending, false, Waiting)];
    var begun := Opened(1000);
    var queued := begun.(jobs := jobs, pending := [0, 1]);
    var late := queued.(now := 10);
    [begun, begun.(jobs := jobs[..1], pending := [0]), queued, late,
     late.(pc := Ticking(Batch(0, 0, 0, 0, false), 0, None), advances := 1),
     late.(pc := Finishing(None), advances := 1),
     late.(pc := Polling, advances := 1)]
  }

  /** Only the front of the queue is looked at for expiry, so a task behind one that has not expired can be claimed after
      its own deadline, when its caller has not given up yet: here a reader due at 5 is claimed at 10. */
  lemma LateClaim()
    ensures |LateStates()| == 7 && Run(1000, LateStates(), LateEvents())
    ensures
      var s := LateStates()[6];
      && s.pc == Polling && s.pending == [0, 1] && s.jobs[1].deadline < s.now && !Stopping(s)
      && OwnerStep(s, 0, false).pc == Serving(1)
  {
    var states, events := LateStates(), LateEvents();
    forall k | 0 <= k < 6
      ensures Indexed(states[k]) && states[k + 1] == Next(states[k], events[k])
    {
      LateStep(k);
    }
    LateTaken();
  }

  lemma LateStep(k: nat)
    requires k < 6
    ensures |LateStates()| == 7 && |LateEvents()| == 6
    ensures Indexed(LateStates()[k]) && LateStates()[k + 1] == Next(LateStates()[k], LateEvents()[k])
  {
    if k < 3 {
      LateCall(k);
    } else {
      LateTurn(k);
    }
  }

  lemma LateCall(k: nat)
    requires k < 3
    ensures |LateStates()| == 7 && |LateEvents()| == 6
    ensures Indexed(LateStates()[k]) && LateStates()[k + 1] == Next(LateStates()[k], LateEvents()[k])
  {
    hide OwnerStep;
  }

  lemma LateTurn(k: nat)
    requires 3 <= k < 6
    ensures |LateStates()| == 7 && |LateEvents()| == 6
    ensures Indexed(LateStates()[k]) && LateStates()[k + 1] == Next(LateStates()[k], LateEvents()[k])
  {
    hide Claimed, Dispatched, TimedOut, Released, Executed;
    assert BatchOf(Stats(0, 0, 0, 0), 0) == Batch(0, 0, 0, 0, false);
    assert Counted(Stats(0, 0, 0, 0), Batch(0, 0, 0, 0, false)) == Stats(0, 0, 0, 0);
  }

  lemma LateTaken()
    ensures |LateStates()| == 7 && Indexed(LateStates()[6])
    ensures Claimed(LateStates()[6], false, false).1 == Some(1)
  {
    var s := LateStates()[6];
    assert Dropped(s) == s;
    assert Eligible(s, false, false, 0) == Eligible(s, false, false, 1) == 1;
  }

  /** Nobody waits for ever: once the owner is gone every task is completed or canceled, and new ones are refused. */
  lemma GoneDecides(deadline: nat, states: seq<System>, events: seq<Event>, n: nat, j: nat, later: nat, authoring: bool)
    requires Run(deadline, states, events) && n <= |events| && states[n].pc.Gone? && j < |states[n].jobs|
    ensures states[n].jobs[j].state == Completed || states[n].jobs[j].state == Canceled
    ensures Released(states[n], j).jobs[j].caller != Waiting
    ensures
      var t := Dispatched(states[n], later, authoring);
      t.jobs[|states[n].jobs|].caller == Declined
  {
    hide Run, Next, RunsOf;
    RunSize(deadline, states, events);
    RunKeeps(deadline, states, events, n);
  }

  // The queue as an object

  class JobObject {
    const deadline: nat
    const authoring: bool
    var state: JobState
    var failed: bool

    constructor (deadline: nat, authoring: bool)
      ensures this.deadline == deadline && this.authoring == authoring && state == Pending && !failed
    {
      this.deadline, this.authoring, state, failed := deadline, authoring, Pending, false;
    }
  }

  function DeadlinesOf(pending: seq<JobObject>): (r: seq<nat>)
    ensures |r| == |pending|
  {
    seq(|pending|, k requires 0 <= k < |pending| => pending[k].deadline)
  }

  function KindsOf(pending: seq<JobObject>): (r: seq<bool>)
    ensures |r| == |pending|
  {
    seq(|pending|, k requires 0 <= k < |pending| => pending[k].authoring)
  }

  lemma {:induction false} OverrunStep(stopping: bool, now: nat, waiting: seq<JobObject>)
    ensures
      Overrun(stopping, now, DeadlinesOf(waiting)) ==
        if waiting != [] && (stopping || now >= waiting[0].deadline) then 1 + Overrun(stopping, now, DeadlinesOf(waiting[1..])) else 0
  {
    if waiting != [] {
      assert DeadlinesOf(waiting)[1..] == DeadlinesOf(waiting[1..]);
    }
  }

  lemma KindsLater(waiting: seq<JobObject>, d: nat)
    requires d <= |waiting|
    ensures KindsOf(waiting[d..]) == KindsOf(waiting)[d..]
  {
  }

  lemma DistinctFront(waiting: seq<JobObject>, d: nat)
    requires d <= |waiting| && forall i, k :: 0 <= i < k < |waiting| ==> waiting[i] != waiting[k]
    ensures forall i, k :: 0 <= i < d && 0 <= k < |waiting| - d ==> waiting[i] != waiting[d..][k]
  {
  }

  /** The parts of the owner that its mutex protects; each method is one critical section. */
  class Queue {
    const deadline: nat
    var stop: bool
    var pending: seq<JobObject>

    ghost predicate Valid()
      reads this, pending
    {
      && |pending| <= QUEUE_LIMIT
      && (forall k :: 0 <= k < |pending| ==> pending[k].state == Pending)
      && forall i, k :: 0 <= i < k < |pending| ==> pending[i] != pending[k]
    }

    constructor (deadline: nat)
      ensures Valid() && this.deadline == deadline && !stop && pending == []
    {
      this.deadline, stop, pending := deadline, false, [];
    }

    /** Queues a task, or refuses it at once. */
    method Enqueue(now: nat, deadline: nat, authoring: bool) returns (job: JobObject?)
      requires Valid()
      modifies this`pending
      ensures Valid()
      ensures
        var due := if deadline < this.deadline then deadline else this.deadline;
        if stop || now >= this.deadline || |old(pending)| >= QUEUE_LIMIT || now >= due then job == null && pending == old(pending)
        else
          && job != null && fresh(job) && pending == old(pending) + [job]
          && job.deadline == due && job.authoring == authoring && !job.failed
    {
      var due := if deadline < this.deadline then deadline else this.deadline;
      if stop || now >= this.deadline || |pending| >= QUEUE_LIMIT || now >= due {
        return null;
      }
      var queued := new JobObject(due, authoring);
      pending := pending + [queued];
      job := queued;
    }

    /** A caller gives up a task that nobody has claimed. */
    method GiveUp(job: JobObject, now: nat) returns (canceled: bool)
      requires Valid()
      modifies this`pending, job`state
      ensures Valid()
      ensures canceled <==> old(job.state) == Pending && now >= job.deadline
      ensures canceled ==> job.state == Canceled && job !in pending && forall other :: other in pending <==> other in old(pending) && other != job
      ensures !canceled ==> job.state == old(job.state) && pending == old(pending)
    {
      canceled := job.state == Pending && now >= job.deadline;
      if canceled {
        ghost var before := pending;
        var kept: seq<JobObject>, k := [], 0;
        while k < |pending|
          invariant k <= |pending| && |kept| <= k && job !in kept
          invariant forall other :: other in kept <==> other in pending[..k] && other != job
          invariant forall i, m :: 0 <= i < m < |kept| ==> kept[i] != kept[m]
          invariant forall i :: 0 <= i < |kept| ==> kept[i] in pending[..k]
        {
          if pending[k] != job {
            kept := kept + [pending[k]];
          }
          k := k + 1;
        }
        assert pending[..k] == before;
        job.state, pending := Canceled, kept;
      }
    }

    /** Cancels what has expired at the front, and nothing else. */
    method DropExpired(now: nat)
      requires Valid()
      modifies this`pending, pending`state
      ensures Valid()
      ensures
        var d := Overrun(stop || now >= deadline, now, DeadlinesOf(old(pending)));
        && pending == old(pending)[d..]
        && forall k :: 0 <= k < d ==> old(pending)[k].state == Canceled
    {
      hide Overrun, DeadlinesOf;
      ghost var before, gone := pending, 0;
      while pending != [] && (stop || now >= deadline || now >= pending[0].deadline)
        invariant Valid() && gone <= |before| && pending == before[gone..]
        invariant forall k :: 0 <= k < gone ==> before[k].state == Canceled
        invariant
          Overrun(stop || now >= deadline, now, DeadlinesOf(before)) ==
          gone + Overrun(stop || now >= deadline, now, DeadlinesOf(pending))
        decreases |pending|
      {
        OverrunStep(stop || now >= deadline, now, pending);
        assert pending[0] == before[gone];
        CancelFirst(pending[0]);
        gone := gone + 1;
      }
      OverrunStep(stop || now >= deadline, now, pending);
    }

    method CancelFirst(job: JobObject)
      requires Valid() && pending != [] && pending[0] == job
      modifies this`pending, job`state
      ensures Valid() && pending == old(pending)[1..] && job.state == Canceled
    {
      ghost var waiting := pending;
      job.state := Canceled;
      pending := pending[1..];
      assert forall k :: 0 <= k < |pending| ==> pending[k] == waiting[k + 1] && waiting[k + 1] != waiting[0];
    }

    /** Takes the first task that may run now. */
    method TakeEligible(tick: bool, overloaded: bool) returns (job: JobObject?)
      requires Valid()
      modifies this`pending, pending`state
      ensures Valid()
      ensures
        var at := FirstTimely(KindsOf(old(pending)), tick, overloaded);
        && pending == Remaining(old(pending), 0, at)
        && if at < |old(pending)| then job == old(pending)[at] && job.state == Running && job !in pending else job == null
    {
      job := null;
      var k := 0;
      ghost var kinds := KindsOf(pending);
      assert kinds[0..] == kinds && pending[0..] == pending;
      while k < |pending| && pending[k].authoring && !(tick && !overloaded)
        invariant k <= |pending|
        invariant FirstTimely(kinds, tick, overloaded) == k + FirstTimely(kinds[k..], tick, overloaded)
      {
        assert kinds[k..][1..] == kinds[k + 1..];
        k := k + 1;
      }
      if k < |pending| {
        job := pending[k];
        ghost var waiting := pending;
        pending := pending[..k] + pending[k + 1..];
        job.state := Running;
        assert forall i :: 0 <= i < |pending| ==> pending[i] == if i < k then waiting[i] else waiting[i + 1];
      }
    }

    /** Claims a task: what has expired at the front goes, the first task that may run now is taken, and the rest stays. */
    method Claim(now: nat, tick: bool, overloaded: bool) returns (job: JobObject?)
      requires Valid()
      modifies this`pending, pending`state
      ensures Valid()
      ensures
        var d := Overrun(stop || now >= deadline, now, DeadlinesOf(old(pending)));
        var at := FirstTimely(KindsOf(old(pending))[d..], tick, overloaded);
        && pending == Remaining(old(pending), d, at)
        && (forall k :: 0 <= k < d ==> old(pending)[k].state == Canceled)
        && if d + at < |old(pending)| then job == old(pending)[d + at] && job.state == Running else job == null
    {
      ghost var before := pending;
      ghost var d := Overrun(stop || now >= deadline, now, DeadlinesOf(before));
      DistinctFront(before, d);
      KindsLater(before, d);
      RemainingLater(before, d, FirstTimely(KindsOf(before)[d..], tick, overloaded));
      hide Overrun, DeadlinesOf, KindsOf, FirstTimely, Remaining;
      DropExpired(now);
      job := TakeEligible(tick, overloaded);
    }

    method Finish(job: JobObject?)
      requires Valid() && (job != null ==> job.state == Running)
      modifies if job == null then {} else {job}
      ensures Valid() && (job != null ==> job.state == Completed && job.failed == old(job.failed))
    {
      if job != null {
        job.state := Completed;
      }
    }

    method CancelPending()
      requires Valid()
      modifies this`pending, pending`state
      ensures Valid() && pending == [] && forall j :: j in old(pending) ==> j.state == Canceled
    {
      var k := 0;
      while k < |pending|
        invariant k <= |pending| && pending == old(pending)
        invariant forall i :: 0 <= i < k ==> pending[i].state == Canceled
        invariant forall i :: 0 <= i < |pending| && i >= k ==> pending[i].state == old(pending[i].state)
      {
        pending[k].state := Canceled;
        k := k + 1;
      }
      pending := [];
    }
  }
}
