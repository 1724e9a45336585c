/**
 The job lifecycle (scale/job/models.py). The job table is a map from id to row, with the stored
 outputs of executions beside it. Each manager method runs under row locks and is one step.
 */
module Jobs {
  import opened Common

  datatype Status = Pending | Blocked | Queued | Running | Failed | Completed | Canceled

  type Time = int

  /** A JSON object; like its Python dictionary it counts as absent when empty. */
  type Json = map<string, string>

  datatype Job = Job(
    status: Status,
    numExes: nat,
    superseded: Option<Time>,
    input: Option<Json>,
    output: Option<Json>,
    error: Option<Id>,
    queued: Option<Time>,
    ended: Option<Time>,
    lastStatusChange: Option<Time>)
  {
    predicate HasBeenQueued() { numExes > 0 }

    predicate HasInput() { input.Some? && input.value != map[] }

    predicate HasOutput() { output.Some? && output.value != map[] }

    predicate IsReadyForChildren() { status == Completed && HasOutput() }

    predicate CanBeBlocked() { status != Blocked && !HasBeenQueued() }

    predicate CanBeCanceled() { status !in {Canceled, Completed} }

    predicate CanBeCompleted() { status in {Queued, Running} }

    predicate CanBeFailed() { status in {Queued, Running} }

    predicate CanBePending() { status != Pending && !HasBeenQueued() }

    predicate CanBeQueued() { status in {Pending, Blocked} && HasInput() && !HasBeenQueued() && superseded.None? }

    predicate CanBeRequeued() { status != Completed && HasInput() && HasBeenQueued() && superseded.None? }

    predicate CanBeRunning() { status == Queued }
  }

  /** The `update_jobs_to_*` methods. */
  datatype Update =
    | ToBlocked(when: Time)
    | ToCanceled(when: Time)
    | ToCompleted(when: Time)
    | ToFailed(cause: Id, when: Time)
    | ToPending(when: Time)
    | ToQueued(requeue: bool, when: Time)
    | ToRunning(when: Time)

  predicate Allowed(u: Update, job: Job) {
    match u
    case ToBlocked(_) => job.CanBeBlocked()
    case ToCanceled(_) => job.CanBeCanceled()
    case ToCompleted(_) => job.CanBeCompleted()
    case ToFailed(_, _) => job.CanBeFailed()
    case ToPending(_) => job.CanBePending()
    case ToQueued(requeue, _) => if requeue then job.CanBeRequeued() else job.CanBeQueued()
    case ToRunning(_) => job.CanBeRunning()
  }

  function Changed(u: Update, job: Job): (r: Job) {
    var j := job.(lastStatusChange := Some(u.when));
    match u
    case ToBlocked(_) => j.(status := Blocked)
    case ToCanceled(_) => j.(status := Canceled, error := None)
    case ToCompleted(when) => j.(status := Completed, ended := Some(when))
    case ToFailed(cause, when) => j.(status := Failed, error := Some(cause), ended := Some(when))
    case ToPending(_) => j.(status := Pending)
    case ToQueued(_, when) =>
      j.(status := Queued, error := None, queued := Some(when), ended := None, numExes := j.numExes + 1)
    case ToRunning(_) => j.(status := Running)
  }

  type Outputs = map<(Id, nat), Json>

  datatype State = State(jobs: map<Id, Job>, outputs: Outputs)

  datatype Step =
    | UpdateStatus(ids: seq<Id>, u: Update)
    | Supersede(ids: seq<Id>, when: Time)
    | SetInput(id: Id, data: Json)
    | StoreOutput(id: Id, exe: nat, output: Json)
    | ProcessOutput(ids: seq<Id>)
    | Create(id: Id, initial: Option<Json>)

  /** Input is stored with its schema version, so it is never empty. */
  function Versioned(data: Json): (r: Json)
    ensures r != map[] && "version" in r && r["version"] == "6"
    ensures forall k :: k != "version" ==> (k in r <==> k in data) && (k in data ==> r[k] == data[k])
  {
    assert "version" in data["version" := "6"];
    data["version" := "6"]
  }

  function NewJob(data: Option<Json>): (r: Job) {
    Job(Pending, 0, None, if data.Some? then Some(Versioned(data.value)) else None, None, None, None, None, None)
  }

  predicate OutputReady(outputs: Outputs, id: Id, job: Job) {
    job.status == Completed && (id, job.numExes) in outputs
  }

  /** What a step does to one row. */
  function RowAfter(step: Step, id: Id, job: Job, outputs: Outputs): (r: Job) {
    match step
    case UpdateStatus(ids, u) => if id in ids && Allowed(u, job) then Changed(u, job) else job
    case Supersede(ids, when) => if id in ids then job.(superseded := Some(when)) else job
    case SetInput(i, data) => if id == i then job.(input := Some(Versioned(data))) else job
    case ProcessOutput(ids) =>
      if id in ids && OutputReady(outputs, id, job) then job.(output := Some(outputs[(id, job.numExes)])) else job
    case _ => job
  }

  function Apply(s: State, step: Step): (s': State) {
    var rows := map id | id in s.jobs :: RowAfter(step, id, s.jobs[id], s.outputs);
    match step
    case Create(id, data) => State(if id in rows then rows else rows[id := NewJob(data)], s.outputs)
    case StoreOutput(id, exe, output) =>
      State(rows, if (id, exe) in s.outputs then s.outputs else s.outputs[(id, exe) := output])
    case _ => State(rows, s.outputs)
  }

  function Run(s: State, steps: seq<Step>): (s': State)
    decreases |steps|
  {
    if steps == [] then s else Run(Apply(s, steps[0]), steps[1..])
  }

  const EMPTY := State(map[], map[])

  // ---- What every reachable state satisfies ----

  predicate JobInv(id: Id, job: Job, outputs: Outputs) {
    && (job.status in {Pending, Blocked} ==> job.numExes == 0)
    && (job.status in {Queued, Running, Failed, Completed} ==> job.numExes > 0)
    && (job.numExes > 0 ==> job.HasInput())
    && (job.error.Some? <==> job.status == Failed)
    && (job.status in {Completed, Failed} ==> job.ended.Some?)
    && (job.ended.Some? ==> job.status in {Completed, Failed} || (job.status == Canceled && job.numExes > 0))
    && (job.queued.Some? <==> job.numExes > 0)
    && (job.output.Some? ==> OutputReady(outputs, id, job) && outputs[(id, job.numExes)] == job.output.value)
  }

  ghost predicate Inv(s: State) {
    forall id :: id in s.jobs ==> JobInv(id, s.jobs[id], s.outputs)
  }

  lemma ChangeKeeps(u: Update, id: Id, job: Job, outputs: Outputs)
    requires JobInv(id, job, outputs) && Allowed(u, job)
    ensures JobInv(id, Changed(u, job), outputs)
  {
  }

  lemma RowKeeps(step: Step, id: Id, job: Job, outputs: Outputs)
    requires JobInv(id, job, outputs)
    ensures JobInv(id, RowAfter(step, id, job, outputs), outputs)
  {
    if step.UpdateStatus? && Allowed(step.u, job) { ChangeKeeps(step.u, id, job, outputs); }
  }

  lemma StepKeeps(s: State, step: Step)
    requires Inv(s)
    ensures Inv(Apply(s, step))
  {
    forall id | id in s.jobs ensures JobInv(id, RowAfter(step, id, s.jobs[id], s.outputs), s.outputs) {
      RowKeeps(step, id, s.jobs[id], s.outputs);
    }
  }

  /** Every state reachable by the manager's steps ties status, counter, input, error, times and output together. */
  lemma {:induction false} RunKeeps(s: State, steps: seq<Step>)
    requires Inv(s)
    ensures Inv(Run(s, steps))
    decreases |steps|
  {
    if steps != [] {
      StepKeeps(s, steps[0]);
      RunKeeps(Apply(s, steps[0]), steps[1..]);
    }
  }

  /** When a job may be updated, by what it is: its status, whether it was queued, has input, is superseded. */
  predicate MayChange(u: Update, job: Job) {
    match u
    case ToBlocked(_) => job.numExes == 0 && job.status in {Pending, Canceled}
    case ToPending(_) => job.numExes == 0 && job.status in {Blocked, Canceled}
    case ToCanceled(_) => job.status in {Pending, Blocked, Queued, Running, Failed}
    case ToCompleted(_) => job.status in {Queued, Running}
    case ToFailed(_, _) => job.status in {Queued, Running}
    case ToRunning(_) => job.status == Queued
    case ToQueued(requeue, _) =>
      && job.superseded == None
      && if requeue then job.numExes > 0 && job.status in {Queued, Running, Failed, Canceled}
         else job.status in {Pending, Blocked} && job.input.Some? && job.input.value != map[]
  }

  lemma AllowedExactly(u: Update, id: Id, job: Job, outputs: Outputs)
    requires JobInv(id, job, outputs)
    ensures Allowed(u, job) <==> MayChange(u, job)
  {
  }

  /** In every reachable state the guards, several of which do not name the statuses they mean, admit exactly these jobs. */
  lemma GuardsExact(steps: seq<Step>, id: Id, u: Update)
    requires id in Run(EMPTY, steps).jobs
    ensures var job := Run(EMPTY, steps).jobs[id]; Allowed(u, job) <==> MayChange(u, job)
  {
    RunKeeps(EMPTY, steps);
    AllowedExactly(u, id, Run(EMPTY, steps).jobs[id], Run(EMPTY, steps).outputs);
  }

  /** What each update writes; superseded time, input and output are never touched. */
  predicate Did(u: Update, a: Job, b: Job) {
    match u
    case ToBlocked(t) => b == Job(Blocked, a.numExes, a.superseded, a.input, a.output, a.error, a.queued, a.ended, Some(t))
    case ToCanceled(t) => b == Job(Canceled, a.numExes, a.superseded, a.input, a.output, None, a.queued, a.ended, Some(t))
    case ToCompleted(t) => b == Job(Completed, a.numExes, a.superseded, a.input, a.output, a.error, a.queued, Some(t), Some(t))
    case ToFailed(e, t) => b == Job(Failed, a.numExes, a.superseded, a.input, a.output, Some(e), a.queued, Some(t), Some(t))
    case ToPending(t) => b == Job(Pending, a.numExes, a.superseded, a.input, a.output, a.error, a.queued, a.ended, Some(t))
    case ToQueued(_, t) => b == Job(Queued, a.numExes + 1, a.superseded, a.input, a.output, None, Some(t), None, Some(t))
    case ToRunning(t) => b == Job(Running, a.numExes, a.superseded, a.input, a.output, a.error, a.queued, a.ended, Some(t))
  }

  lemma ChangedDid(u: Update, job: Job)
    ensures Did(u, job, Changed(u, job))
  {
  }

  /** Superseding marks the given rows with the time, and nothing else. */
  lemma SupersedeMarks(s: State, ids: seq<Id>, t: Time, id: Id)
    requires id in s.jobs
    ensures var a, s' := s.jobs[id], Apply(s, Supersede(ids, t));
            && s'.jobs.Keys == s.jobs.Keys && s'.outputs == s.outputs
            && s'.jobs[id] ==
               if id in ids
               then Job(a.status, a.numExes, Some(t), a.input, a.output, a.error, a.queued, a.ended, a.lastStatusChange)
               else a
  {
  }

  /** Processing gives completed rows the stored output of their current execution, and changes nothing else. */
  lemma OutputProcessed(s: State, ids: seq<Id>, id: Id)
    requires id in s.jobs
    ensures var a, s' := s.jobs[id], Apply(s, ProcessOutput(ids));
            && s'.jobs.Keys == s.jobs.Keys && s'.outputs == s.outputs
            && s'.jobs[id] ==
               if id in ids && a.status == Completed && (id, a.numExes) in s.outputs
               then Job(a.status, a.numExes, a.superseded, a.input, Some(s.outputs[(id, a.numExes)]), a.error, a.queued, a.ended,
                        a.lastStatusChange)
               else a
  {
  }

  /** The first output stored for an execution is kept; rows are not touched. */
  lemma OutputStored(s: State, id: Id, exe: nat, out: Json)
    ensures var s' := Apply(s, StoreOutput(id, exe, out));
            && s'.jobs == s.jobs
            && s'.outputs == if (id, exe) in s.outputs then s.outputs else s.outputs[(id, exe) := out]
  {
  }

  /** A new job is PENDING, was never queued, and has input exactly when some was given, which it holds. */
  lemma CreateAdds(s: State, id: Id, data: Option<Json>, other: Id)
    ensures var s' := Apply(s, Create(id, data));
            && s'.outputs == s.outputs && s'.jobs.Keys == s.jobs.Keys + {id}
            && (other in s.jobs ==> s'.jobs[other] == s.jobs[other])
            && (id !in s.jobs ==>
                  var job := s'.jobs[id];
                  && job == Job(Pending, 0, None, job.input, None, None, None, None, None)
                  && job.HasInput() == data.Some?
                  && (data.Some? ==> forall k :: k in data.value && k != "version" ==>
                        k in job.input.value && job.input.value[k] == data.value[k]))
  {
  }

  /** Setting a job's input replaces that field of that row, with what was given. */
  lemma InputSet(s: State, id: Id, data: Json, other: Id)
    requires other in s.jobs
    ensures var a, b := s.jobs[other], Apply(s, SetInput(id, data)).jobs[other];
            && b == Job(a.status, a.numExes, a.superseded, b.input, a.output, a.error, a.queued, a.ended, a.lastStatusChange)
            && (other != id ==> b == a)
            && (other == id ==> b.HasInput() && forall k :: k in data && k != "version" ==>
                                k in b.input.value && b.input.value[k] == data[k])
  {
  }

  predicate EntersQueue(s: State, step: Step, id: Id) {
    step.UpdateStatus? && step.u.ToQueued? && id in step.ids && id in s.jobs && Allowed(step.u, s.jobs[id])
  }

  function Entries(s: State, steps: seq<Step>, id: Id): (n: nat)
    decreases |steps|
  {
    if steps == [] then 0
    else (if EntersQueue(s, steps[0], id) then 1 else 0) + Entries(Apply(s, steps[0]), steps[1..], id)
  }

  function NumExes(s: State, id: Id): (n: nat) { if id in s.jobs then s.jobs[id].numExes else 0 }

  lemma CounterStep(s: State, step: Step, id: Id)
    ensures NumExes(Apply(s, step), id) == NumExes(s, id) + if EntersQueue(s, step, id) then 1 else 0
  {
  }

  /** The execution counter counts the entries to QUEUED, whatever the order of the steps and repetitions inside one. */
  lemma {:induction false} CounterCounts(s: State, steps: seq<Step>, id: Id)
    ensures NumExes(Run(s, steps), id) == NumExes(s, id) + Entries(s, steps, id)
    decreases |steps|
  {
    if steps != [] {
      CounterStep(s, steps[0], id);
      CounterCounts(Apply(s, steps[0]), steps[1..], id);
    }
  }

  /** A superseded job stays superseded and never enters the queue again. */
  lemma {:induction false} SupersededFrozen(s: State, steps: seq<Step>, id: Id)
    requires id in s.jobs && s.jobs[id].superseded.Some?
    ensures id in Run(s, steps).jobs && Run(s, steps).jobs[id].superseded.Some?
    ensures Run(s, steps).jobs[id].numExes == s.jobs[id].numExes && Entries(s, steps, id) == 0
    decreases |steps|
  {
    if steps != [] { SupersededFrozen(Apply(s, steps[0]), steps[1..], id); }
  }

  /** Status, counter, times and error are as they were, and an output once there is too. */
  predicate Kept(a: Job, b: Job) {
    && b.status == a.status && b.numExes == a.numExes && b.ended == a.ended && b.error == a.error
    && b.queued == a.queued && b.lastStatusChange == a.lastStatusChange
    && (a.output.Some? ==> b.output == a.output)
  }

  lemma CompletedStep(s: State, step: Step, id: Id)
    requires Inv(s) && id in s.jobs && s.jobs[id].status == Completed
    ensures id in Apply(s, step).jobs && Kept(s.jobs[id], Apply(s, step).jobs[id])
  {
    assert JobInv(id, s.jobs[id], s.outputs);
  }

  /** No run leaves COMPLETED, or changes what completing the job recorded. */
  lemma {:induction false} CompletedForever(s: State, steps: seq<Step>, id: Id)
    requires Inv(s) && id in s.jobs && s.jobs[id].status == Completed
    ensures id in Run(s, steps).jobs && Kept(s.jobs[id], Run(s, steps).jobs[id])
    decreases |steps|
  {
    if steps != [] {
      StepKeeps(s, steps[0]);
      CompletedStep(s, steps[0], id);
      CompletedForever(Apply(s, steps[0]), steps[1..], id);
    }
  }

  /** Over any run from the empty table, a job ready for its children stays ready, with the output of execution `numExes`. */
  lemma ReadyForever(before: seq<Step>, after: seq<Step>, id: Id)
    requires id in Run(EMPTY, before).jobs && Run(EMPTY, before).jobs[id].IsReadyForChildren()
    ensures var s, t := Run(EMPTY, before), Run(Run(EMPTY, before), after);
            && id in t.jobs && t.jobs[id].IsReadyForChildren() && t.jobs[id].output == s.jobs[id].output
            && (id, t.jobs[id].numExes) in t.outputs
            && t.jobs[id].output == Some(t.outputs[(id, t.jobs[id].numExes)])
  {
    RunKeeps(EMPTY, before);
    CompletedForever(Run(EMPTY, before), after, id);
    RunKeeps(Run(EMPTY, before), after);
  }

  lemma {:induction false} RunThen(s: State, a: seq<Step>, b: seq<Step>)
    ensures Run(s, a + b) == Run(Run(s, a), b)
    decreases |a|
  {
    if a == [] {
      assert a + b == b;
    } else {
      assert (a + b)[1..] == a[1..] + b;
      RunThen(Apply(s, a[0]), a[1..], b);
    }
  }

  lemma {:induction false} StoredForever(s: State, steps: seq<Step>, key: (Id, nat))
    requires key in s.outputs
    ensures key in Run(s, steps).outputs && Run(s, steps).outputs[key] == s.outputs[key]
    decreases |steps|
  {
    if steps != [] { StoredForever(Apply(s, steps[0]), steps[1..], key); }
  }

  lemma RunSplit(s: State, steps: seq<Step>, n: int)
    requires 0 <= n <= |steps|
    ensures Run(s, steps) == Run(Run(s, steps[..n]), steps[n..])
  {
    RunThen(s, steps[..n], steps[n..]);
    assert steps[..n] + steps[n..] == steps;
  }

  lemma StoredAfter(steps: seq<Step>, i: int, id: Id, exe: nat, out: Json)
    requires 0 <= i < |steps| && steps[i] == StoreOutput(id, exe, out)
    requires (id, exe) !in Run(EMPTY, steps[..i]).outputs
    ensures var s := Run(EMPTY, steps); (id, exe) in s.outputs && s.outputs[(id, exe)] == out
  {
    var s := Run(EMPTY, steps[..i]);
    RunSplit(EMPTY, steps, i);
    assert steps[i..][0] == steps[i];
    StoredForever(Apply(s, steps[i]), steps[i..][1..], (id, exe));
  }

  lemma CompletedAfter(steps: seq<Step>, j: int, id: Id)
    requires 0 <= j <= |steps| && id in Run(EMPTY, steps[..j]).jobs
    requires Run(EMPTY, steps[..j]).jobs[id].status == Completed
    ensures id in Run(EMPTY, steps).jobs && Kept(Run(EMPTY, steps[..j]).jobs[id], Run(EMPTY, steps).jobs[id])
  {
    RunKeeps(EMPTY, steps[..j]);
    RunSplit(EMPTY, steps, j);
    CompletedForever(Run(EMPTY, steps[..j]), steps[j..], id);
  }

  /**
   In any run, a job that has completed by step `j` and the output of that execution, first stored at step
   `i`, come together whichever came first and whatever steps lie between: once the job is processed it
   has that output for ever, and is ready for its children exactly when the output is not empty.
   */
  lemma OutputArrives(steps: seq<Step>, i: int, j: int, ids: seq<Id>, after: seq<Step>, id: Id, exe: nat, out: Json)
    requires 0 <= i < |steps| && steps[i] == StoreOutput(id, exe, out) && (id, exe) !in Run(EMPTY, steps[..i]).outputs
    requires 0 <= j <= |steps| && id in Run(EMPTY, steps[..j]).jobs && id in ids
    requires Run(EMPTY, steps[..j]).jobs[id].status == Completed && Run(EMPTY, steps[..j]).jobs[id].numExes == exe
    ensures var t := Run(EMPTY, steps + [ProcessOutput(ids)] + after);
            && id in t.jobs && t.jobs[id].output == Some(out)
            && (t.jobs[id].IsReadyForChildren() <==> out != map[])
  {
    var s := Run(EMPTY, steps);
    StoredAfter(steps, i, id, exe, out);
    CompletedAfter(steps, j, id);
    var s' := Apply(s, ProcessOutput(ids));
    assert s'.jobs[id].status == Completed && s'.jobs[id].output == Some(out);
    var all := steps + [ProcessOutput(ids)];
    RunThen(EMPTY, steps, [ProcessOutput(ids)]);
    assert [ProcessOutput(ids)][1..] == [];
    assert Run(EMPTY, all) == s';
    assert (all + after)[..|all|] == all;
    CompletedAfter(all + after, |all|, id);
  }

  // ---- The manager ----

  function Selected(jobs: map<Id, Job>, ids: seq<Id>, u: Update): (r: seq<Id>)
    requires forall k :: 0 <= k < |ids| ==> ids[k] in jobs
    decreases |ids|
  {
    if ids == [] then []
    else
      var n := |ids| - 1;
      var before := Selected(jobs, ids[..n], u);
      if Allowed(u, jobs[ids[n]]) then before + [ids[n]] else before
  }

  lemma {:induction false} SelectedExactly(jobs: map<Id, Job>, ids: seq<Id>, u: Update, id: Id)
    requires forall k :: 0 <= k < |ids| ==> ids[k] in jobs
    ensures id in Selected(jobs, ids, u) <==> id in ids && Allowed(u, jobs[id])
    decreases |ids|
  {
    if ids != [] {
      var n := |ids| - 1;
      assert ids == ids[..n] + [ids[n]];
      SelectedExactly(jobs, ids[..n], u, id);
    }
  }

  lemma SelectedAll(jobs: map<Id, Job>, ids: seq<Id>, u: Update)
    requires forall k :: 0 <= k < |ids| ==> ids[k] in jobs
    ensures forall id :: id in Selected(jobs, ids, u) <==> id in ids && Allowed(u, jobs[id])
  {
    forall id ensures id in Selected(jobs, ids, u) <==> id in ids && Allowed(u, jobs[id]) {
      SelectedExactly(jobs, ids, u, id);
    }
  }

  lemma SelectedMayChange(s: State, ids: seq<Id>, u: Update)
    requires Inv(s) && forall k :: 0 <= k < |ids| ==> ids[k] in s.jobs
    ensures forall id :: id in ids ==> id in s.jobs && (Allowed(u, s.jobs[id]) <==> MayChange(u, s.jobs[id]))
  {
    forall id | id in ids ensures id in s.jobs && (Allowed(u, s.jobs[id]) <==> MayChange(u, s.jobs[id])) {
      assert JobInv(id, s.jobs[id], s.outputs);
    }
  }

  class JobManager {
    var jobs: map<Id, Job>
    var outputs: Outputs

    ghost function Contents(): (s: State)
      reads this
    {
      State(jobs, outputs)
    }

    constructor ()
      ensures Contents() == EMPTY && Inv(Contents())
    {
      jobs, outputs := map[], map[];
    }

    /** The loop of `update_jobs_to_*`: the ids of the locked models that pass the guard. */
    method Select(models: seq<Id>, u: Update) returns (ids: seq<Id>)
      requires forall k :: 0 <= k < |models| ==> models[k] in jobs
      ensures ids == Selected(jobs, models, u)
    {
      ids := [];
      for n := 0 to |models|
        invariant ids == Selected(jobs, models[..n], u)
      {
        assert models[..n + 1][..n] == models[..n];
        if Allowed(u, jobs[models[n]]) {
          ids := ids + [models[n]];
        }
      }
      assert models[..|models|] == models;
    }

    /** `update_jobs_to_*` on locked models: collects the ids that pass the guard, then updates them in one query. */
    method UpdateJobs(models: seq<Id>, u: Update) returns (updated: seq<Id>)
      requires forall k :: 0 <= k < |models| ==> models[k] in jobs
      requires Inv(Contents())
      modifies this`jobs
      ensures Contents() == Apply(old(Contents()), UpdateStatus(models, u)) && Inv(Contents())
      ensures updated == Selected(old(jobs), models, u)
      ensures forall id :: id in updated <==> id in models && MayChange(u, old(jobs)[id])
      ensures jobs.Keys == old(jobs).Keys
      ensures forall id :: id in jobs ==>
                if id in updated then Did(u, old(jobs)[id], jobs[id]) else jobs[id] == old(jobs)[id]
    {
      updated := Select(models, u);
      SelectedAll(jobs, models, u);
      SelectedMayChange(Contents(), models, u);
      StepKeeps(Contents(), UpdateStatus(models, u));
      jobs := map id | id in jobs :: if id in updated then Changed(u, jobs[id]) else jobs[id];
    }

    /** `supersede_jobs` */
    method SupersedeJobs(ids: seq<Id>, when: Time)
      requires Inv(Contents())
      modifies this`jobs
      ensures Contents() == Apply(old(Contents()), Supersede(ids, when)) && Inv(Contents())
    {
      StepKeeps(Contents(), Supersede(ids, when));
      jobs := map id | id in jobs :: if id in ids then jobs[id].(superseded := Some(when)) else jobs[id];
    }

    /** `process_job_output`; returns the jobs that are completed and have their execution's output. */
    method ProcessJobOutput(ids: seq<Id>) returns (ready: set<Id>)
      requires Inv(Contents())
      modifies this`jobs
      ensures Contents() == Apply(old(Contents()), ProcessOutput(ids)) && Inv(Contents())
      ensures forall id :: id in ready <==>
                           id in ids && id in jobs && jobs[id].status == Completed && (id, jobs[id].numExes) in outputs
      ensures forall id :: id in ready ==> jobs[id].output == Some(outputs[(id, jobs[id].numExes)])
    {
      StepKeeps(Contents(), ProcessOutput(ids));
      jobs := map id | id in jobs ::
          if id in ids && OutputReady(outputs, id, jobs[id])
          then jobs[id].(output := Some(outputs[(id, jobs[id].numExes)]))
          else jobs[id];
      ready := set id | id in ids && id in jobs && OutputReady(outputs, id, jobs[id]);
    }
  }
}
