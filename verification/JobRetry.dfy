/**
 Retrying failed executions (scale/job/messages/failed_jobs.py, scale/queue/messages/queued_jobs.py). A failed
 report may, instead of failing a job, send a message that puts it back on the queue; that message carries
 the number of the execution that failed. A broker may repeat and reorder both.
 */
module JobRetry {
  import opened Common
  import J = Jobs
  import D = JobDelivery

  /** A job and the number of one of its executions. */
  type Pair = (Id, nat)

  datatype Policy = Policy(maxTries: map<Id, nat>, longRunning: set<Id>)

  /** The decision of a failed report, for an error that may or may not be retried. */
  predicate Retried(p: Policy, retryable: bool, id: Id, job: J.Job) {
    && ((retryable && id in p.maxTries && job.numExes < p.maxTries[id]) || id in p.longRunning)
    && job.superseded.None?
  }

  /** The job table, and the requeue messages sent so far; each may be delivered any number of times. */
  datatype State = State(table: J.State, sent: set<Pair>)

  datatype Step =
    | Report(r: D.Report)
    | Fail(jobs: seq<Pair>, retryable: bool, cause: Id, when: J.Time)
    | Requeue(jobs: seq<Pair>, when: J.Time)
    | Other(step: J.Step)

  ghost predicate Known(t: J.State, jobs: seq<Pair>) {
    forall p :: p in jobs ==> p.0 in t.jobs
  }

  predicate Decided(p: Policy, t: J.State, retryable: bool, pair: Pair, retry: bool) {
    && pair.0 in t.jobs && t.jobs[pair.0].numExes == pair.1 && t.jobs[pair.0].CanBeFailed()
    && Retried(p, retryable, pair.0, t.jobs[pair.0]) == retry
  }

  /** The jobs of a failed report that are to be retried, or to be failed. */
  function Chosen(p: Policy, t: J.State, jobs: seq<Pair>, retryable: bool, retry: bool): (ids: seq<Id>)
    ensures forall id :: id in ids ==> id in t.jobs
    ensures forall id :: id in t.jobs ==>
              var pair := (id, t.jobs[id].numExes);
              (id in ids <==> pair in jobs && Decided(p, t, retryable, pair, retry))
    decreases |jobs|
  {
    if jobs == [] then []
    else
      assert jobs == [jobs[0]] + jobs[1..];
      (if Decided(p, t, retryable, jobs[0], retry) then [jobs[0].0] else []) + Chosen(p, t, jobs[1..], retryable, retry)
  }

  /** A requeue message can be delivered once it was sent; naming a job that does not exist, it raises. */
  ghost predicate Delivered(s: State, jobs: seq<Pair>) {
    Known(s.table, jobs) && forall p :: p in jobs ==> p in s.sent
  }

  ghost function Failed(p: Policy, s: State, jobs: seq<Pair>, retryable: bool, cause: Id, when: J.Time): (s': State) {
    var again := Chosen(p, s.table, jobs, retryable, true);
    State(J.Apply(s.table, J.UpdateStatus(Chosen(p, s.table, jobs, retryable, false), J.ToFailed(cause, when))),
          s.sent + set id | id in again :: (id, s.table.jobs[id].numExes))
  }

  ghost function Apply(p: Policy, s: State, step: Step): (s': State) {
    match step
    case Report(r) => if r.u.ToRunning? || r.u.ToCompleted? then s.(table := D.Deliver(s.table, r)) else s
    case Fail(jobs, retryable, cause, when) => if Known(s.table, jobs) then Failed(p, s, jobs, retryable, cause, when) else s
    case Requeue(jobs, when) =>
      if Delivered(s, jobs)
      then s.(table := J.Apply(s.table, J.UpdateStatus(D.Current(s.table, jobs), J.ToQueued(true, when)))) else s
    case Other(st) => s.(table := J.Apply(s.table, st))
  }

  ghost function Run(p: Policy, s: State, steps: seq<Step>): (s': State)
    decreases |steps|
  {
    if steps == [] then s else Run(p, Apply(p, s, steps[0]), steps[1..])
  }

  function Exes(s: State, id: Id): (n: nat) { J.NumExes(s.table, id) }

  /** The step puts execution `n` of the job back on the queue. */
  ghost predicate Queues(s: State, step: Step, id: Id, n: nat) {
    && step.Requeue? && Delivered(s, step.jobs) && (id, n) in step.jobs
    && id in s.table.jobs && s.table.jobs[id].numExes == n && s.table.jobs[id].CanBeRequeued()
  }

  ghost function Requeues(p: Policy, s: State, steps: seq<Step>, id: Id, n: nat): (k: nat)
    decreases |steps|
  {
    if steps == [] then 0
    else (if Queues(s, steps[0], id, n) then 1 else 0) + Requeues(p, Apply(p, s, steps[0]), steps[1..], id, n)
  }

  /** Running and completed reports are delivered, and everything else that happens to the jobs happens. */
  lemma OtherSteps(p: Policy, s: State, r: D.Report, st: J.Step)
    ensures r.u.ToRunning? || r.u.ToCompleted? ==> Apply(p, s, Report(r)) == State(D.Deliver(s.table, r), s.sent)
    ensures Apply(p, s, Other(st)) == State(J.Apply(s.table, st), s.sent)
  {
  }

  // ---- At most once ----

  lemma QueuesRow(p: Policy, s: State, step: Step, id: Id)
    requires step.Requeue? && Delivered(s, step.jobs) && id in s.table.jobs
    ensures var job := s.table.jobs[id];
            && id in Apply(p, s, step).table.jobs
            && Apply(p, s, step).table.jobs[id] ==
               if Queues(s, step, id, job.numExes) then J.Changed(J.ToQueued(true, step.when), job) else job
  {
    D.CurrentExactly(s.table, step.jobs, id);
  }

  lemma ReportKeepsExes(t: J.State, r: D.Report, id: Id)
    requires r.u.ToRunning? || r.u.ToCompleted?
    ensures J.NumExes(D.Deliver(t, r), id) >= J.NumExes(t, id)
  {
    if id in t.jobs { D.DeliverRow(t, r, id); }
  }

  lemma StepCounts(p: Policy, s: State, step: Step, id: Id)
    ensures Exes(Apply(p, s, step), id) >= Exes(s, id)
    ensures Queues(s, step, id, Exes(s, id)) ==> Exes(Apply(p, s, step), id) == Exes(s, id) + 1
  {
    match step
    case Report(r) => if r.u.ToRunning? || r.u.ToCompleted? { ReportKeepsExes(s.table, r, id); }
    case Fail(jobs, retryable, cause, when) =>
      J.CounterStep(s.table, J.UpdateStatus(Chosen(p, s.table, jobs, retryable, false), J.ToFailed(cause, when)), id);
    case Requeue(jobs, when) =>
      J.CounterStep(s.table, J.UpdateStatus(D.Current(s.table, jobs), J.ToQueued(true, when)), id);
      if Delivered(s, jobs) && id in s.table.jobs { QueuesRow(p, s, step, id); }
    case Other(st) => J.CounterStep(s.table, st, id);
  }

  /** However often failed reports and requeue messages are repeated, and whatever else happens, an execution is requeued at most once. */
  lemma {:induction false} RequeuedAtMostOnce(p: Policy, s: State, steps: seq<Step>, id: Id, n: nat)
    ensures Requeues(p, s, steps, id, n) <= if Exes(s, id) <= n then 1 else 0
    decreases |steps|
  {
    if steps != [] {
      StepCounts(p, s, steps[0], id);
      RequeuedAtMostOnce(p, Apply(p, s, steps[0]), steps[1..], id, n);
    }
  }

  // ---- Never beyond the tries ----

  /** What was sent is about executions that had tries left, or jobs that run for ever. */
  ghost predicate SentWithin(p: Policy, s: State) {
    forall pair :: pair in s.sent ==> pair.0 in p.longRunning || (pair.0 in p.maxTries && pair.1 < p.maxTries[pair.0])
  }

  lemma {:induction false} RunSentWithin(p: Policy, s: State, steps: seq<Step>)
    requires SentWithin(p, s)
    ensures SentWithin(p, Run(p, s, steps))
    decreases |steps|
  {
    if steps != [] { RunSentWithin(p, Apply(p, s, steps[0]), steps[1..]); }
  }

  /** In every run a retry starts no execution beyond the job's tries, unless the job type is long running. */
  lemma TriesBound(p: Policy, table: J.State, steps: seq<Step>, step: Step, id: Id, n: nat)
    requires Queues(Run(p, State(table, {}), steps), step, id, n)
    ensures id in p.longRunning || (id in p.maxTries && n + 1 <= p.maxTries[id])
    ensures Exes(Apply(p, Run(p, State(table, {}), steps), step), id) == n + 1
  {
    RunSentWithin(p, State(table, {}), steps);
    StepCounts(p, Run(p, State(table, {}), steps), step, id);
  }

  // ---- Exactly once ----

  /** The pairs about the job are all about executions up to `n`. */
  ghost predicate UpTo(jobs: seq<Pair>, id: Id, n: nat) {
    forall pair :: pair in jobs && pair.0 == id ==> pair.1 <= n
  }

  /** A running report, a failed report that the policy answers with a retry, or a requeue message, about executions up to `n`. */
  ghost predicate Retrying(p: Policy, step: Step, id: Id, n: nat) {
    match step
    case Report(r) => r.u.ToRunning? && UpTo(r.jobs, id, n)
    case Fail(jobs, retryable, _, _) =>
      UpTo(jobs, id, n) && (id in p.longRunning || (retryable && id in p.maxTries && n < p.maxTries[id]))
    case Requeue(jobs, _) => UpTo(jobs, id, n)
    case Other(_) => false
  }

  predicate Waiting(job: J.Job, n: nat) { job.numExes == n > 0 && D.Active(job) && job.HasInput() && job.superseded.None? && job.error.None? }

  predicate Again(job: J.Job, n: nat) { job.numExes == n + 1 && job.status == J.Queued && job.error.None? && job.ended.None? }

  /** Before the requeue the job stays active in execution `n`; after it, it stays queued for the next. */
  ghost predicate Phase(s: State, id: Id, n: nat, requeued: bool) {
    id in s.table.jobs && if requeued then Again(s.table.jobs[id], n) else Waiting(s.table.jobs[id], n)
  }

  lemma RunningPhase(p: Policy, s: State, r: D.Report, id: Id, n: nat, requeued: bool)
    requires Phase(s, id, n, requeued) && r.u.ToRunning? && UpTo(r.jobs, id, n)
    ensures Phase(Apply(p, s, Report(r)), id, n, requeued)
  {
    D.CurrentExactly(s.table, r.jobs, id);
  }

  lemma FailPhase(p: Policy, s: State, step: Step, id: Id, n: nat, requeued: bool)
    requires Phase(s, id, n, requeued) && step.Fail? && Retrying(p, step, id, n)
    ensures Phase(Apply(p, s, step), id, n, requeued)
  {
    assert id !in Chosen(p, s.table, step.jobs, step.retryable, false);
  }

  lemma RequeuePhase(p: Policy, s: State, step: Step, id: Id, n: nat, requeued: bool)
    requires Phase(s, id, n, requeued) && step.Requeue? && UpTo(step.jobs, id, n)
    ensures Phase(Apply(p, s, step), id, n, requeued || Queues(s, step, id, n))
    ensures requeued ==> !Queues(s, step, id, n)
  {
    if Delivered(s, step.jobs) { QueuesRow(p, s, step, id); }
  }

  /**
   A failed report of the active execution that is not retried makes the job FAILED with its cause and time: the
   error is not one to retry or no tries are left, and the job does not run for ever; or it is superseded.
   */
  lemma FailsForGood(p: Policy, s: State, fail: Step, id: Id)
    requires fail.Fail? && Known(s.table, fail.jobs) && id in s.table.jobs && (id, s.table.jobs[id].numExes) in fail.jobs
    requires var job := s.table.jobs[id];
             && job.status in {J.Queued, J.Running}
             && (job.superseded.Some? ||
                 (id !in p.longRunning && (!fail.retryable || id !in p.maxTries || job.numExes >= p.maxTries[id])))
    ensures var s' := Apply(p, s, fail);
            && id in s'.table.jobs && J.Did(J.ToFailed(fail.cause, fail.when), s.table.jobs[id], s'.table.jobs[id])
            && (forall n :: (id, n) in s'.sent ==> (id, n) in s.sent)
  {
    J.ChangedDid(J.ToFailed(fail.cause, fail.when), s.table.jobs[id]);
    assert id in Chosen(p, s.table, fail.jobs, fail.retryable, false);
    assert id !in Chosen(p, s.table, fail.jobs, fail.retryable, true);
  }

  /**
   From an active execution `n`, over any order and repetition of its running and retried failed reports and
   of the requeue messages they send: until a requeue message is delivered the job stays active in execution
   `n`, and from then on it is queued for execution `n + 1`, once, and no repeat of those messages touches it.
   */
  lemma {:induction false} RetriedOnce(p: Policy, s: State, steps: seq<Step>, id: Id, n: nat, requeued: bool)
    requires Phase(s, id, n, requeued) && forall k :: 0 <= k < |steps| ==> Retrying(p, steps[k], id, n)
    ensures Requeues(p, s, steps, id, n) <= if requeued then 0 else 1
    ensures Phase(Run(p, s, steps), id, n, requeued || Requeues(p, s, steps, id, n) == 1)
    decreases |steps|
  {
    if steps != [] {
      var step := steps[0];
      match step {
        case Report(r) => RunningPhase(p, s, r, id, n, requeued);
        case Fail(_, _, _, _) => FailPhase(p, s, step, id, n, requeued);
        case Requeue(_, _) => RequeuePhase(p, s, step, id, n, requeued);
        case Other(_) =>
      }
      RetriedOnce(p, Apply(p, s, step), steps[1..], id, n, requeued || Queues(s, step, id, n));
    }
  }

  /** A retried failed report of the active execution does send its requeue message, and delivering that requeues the job. */
  lemma FailThenRequeue(p: Policy, s: State, fail: Step, when: J.Time, id: Id, n: nat)
    requires Phase(s, id, n, false) && fail.Fail? && Retrying(p, fail, id, n) && Known(s.table, fail.jobs)
    requires (id, n) in fail.jobs
    ensures var s' := Apply(p, s, fail);
            (id, n) in s'.sent && Queues(s', Requeue([(id, n)], when), id, n)
            && Phase(Apply(p, s', Requeue([(id, n)], when)), id, n, true)
  {
    var s' := Apply(p, s, fail);
    FailPhase(p, s, fail, id, n, false);
    assert id in Chosen(p, s.table, fail.jobs, fail.retryable, true);
    RequeuePhase(p, s', Requeue([(id, n)], when), id, n, false);
  }
}
