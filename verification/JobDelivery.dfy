/**
 Reports about one execution of a job, as the messages that carry them apply them
 (scale/job/messages/running_jobs.py, completed_jobs.py, failed_jobs.py). A broker may repeat and
 reorder them, and each may be about many jobs.
 */
module JobDelivery {
  import opened Common
  import opened Jobs

  /** A message: the (job, execution number) pairs it is about, and the update it makes. */
  datatype Report = Report(jobs: seq<(Id, nat)>, u: Update)

  predicate IsReport(r: Report) { r.u.ToRunning? || r.u.ToCompleted? || r.u.ToFailed? }

  predicate IsEnd(r: Report) { r.u.ToCompleted? || r.u.ToFailed? }

  /** Every job of the message exists; otherwise its execution raises and changes nothing. */
  ghost predicate Known(s: State, r: Report) {
    forall p :: p in r.jobs ==> p.0 in s.jobs
  }

  /** The jobs whose execution number still matches; the others are out of date and skipped. */
  function Current(s: State, pairs: seq<(Id, nat)>): (ids: seq<Id>)
    decreases |pairs|
  {
    if pairs == [] then []
    else
      var p := pairs[0];
      (if p.0 in s.jobs && s.jobs[p.0].numExes == p.1 then [p.0] else []) + Current(s, pairs[1..])
  }

  lemma {:induction false} CurrentExactly(s: State, pairs: seq<(Id, nat)>, id: Id)
    ensures id in Current(s, pairs) <==> id in s.jobs && (id, s.jobs[id].numExes) in pairs
    decreases |pairs|
  {
    if pairs != [] {
      assert pairs == [pairs[0]] + pairs[1..];
      CurrentExactly(s, pairs[1..], id);
    }
  }

  /** Executes a message; completions also collect the outputs that are already stored. */
  ghost function Deliver(s: State, r: Report): (s': State) {
    if !Known(s, r) then s
    else
      var ids := Current(s, r.jobs);
      var s1 := Apply(s, UpdateStatus(ids, r.u));
      if r.u.ToCompleted? then Apply(s1, ProcessOutput(ids)) else s1
  }

  ghost function DeliverAll(s: State, rs: seq<Report>): (s': State)
    decreases |rs|
  {
    if rs == [] then s else DeliverAll(Deliver(s, rs[0]), rs[1..])
  }

  /** What the reports decide about a row. */
  datatype Outcome = Outcome(status: Status, error: Option<Id>, ended: Option<Time>, lastStatusChange: Option<Time>)

  function OutcomeOf(job: Job): (o: Outcome) { Outcome(job.status, job.error, job.ended, job.lastStatusChange) }

  predicate About(r: Report, id: Id, exe: nat) { (id, exe) in r.jobs }

  /** The update, and for completions the outputs, seen from one row. */
  lemma UpdateRow(s: State, ids: seq<Id>, u: Update, id: Id)
    requires id in s.jobs && !u.ToQueued?
    ensures var t := Apply(s, UpdateStatus(ids, u));
            && t.jobs.Keys == s.jobs.Keys && t.jobs[id].numExes == s.jobs[id].numExes
            && OutcomeOf(t.jobs[id]) ==
               if id in ids && Allowed(u, s.jobs[id]) then OutcomeOf(Changed(u, s.jobs[id])) else OutcomeOf(s.jobs[id])
  {
  }

  lemma OutputRow(s: State, ids: seq<Id>, id: Id)
    requires id in s.jobs
    ensures var t := Apply(s, ProcessOutput(ids));
            && t.jobs.Keys == s.jobs.Keys && t.jobs[id].numExes == s.jobs[id].numExes
            && OutcomeOf(t.jobs[id]) == OutcomeOf(s.jobs[id])
  {
  }

  /** One message seen from one row. */
  lemma DeliverRow(s: State, r: Report, id: Id)
    requires IsReport(r) && id in s.jobs
    ensures Deliver(s, r).jobs.Keys == s.jobs.Keys
    ensures Deliver(s, r).jobs[id].numExes == s.jobs[id].numExes
    ensures OutcomeOf(Deliver(s, r).jobs[id]) ==
            if Known(s, r) && About(r, id, s.jobs[id].numExes) && Allowed(r.u, s.jobs[id])
            then OutcomeOf(Changed(r.u, s.jobs[id])) else OutcomeOf(s.jobs[id])
  {
    var ids := Current(s, r.jobs);
    CurrentExactly(s, r.jobs, id);
    UpdateRow(s, ids, r.u, id);
    OutputRow(Apply(s, UpdateStatus(ids, r.u)), ids, id);
  }

  predicate Ended(job: Job) { job.status in {Completed, Failed} }

  predicate Active(job: Job) { job.status in {Queued, Running} }

  /** Once an execution has ended, no further report about any execution changes the row's outcome. */
  lemma {:induction false} Settled(s: State, rs: seq<Report>, id: Id)
    requires id in s.jobs && Ended(s.jobs[id]) && forall r :: r in rs ==> IsReport(r)
    ensures id in DeliverAll(s, rs).jobs
    ensures OutcomeOf(DeliverAll(s, rs).jobs[id]) == OutcomeOf(s.jobs[id])
    decreases |rs|
  {
    if rs != [] {
      DeliverRow(s, rs[0], id);
      Settled(Deliver(s, rs[0]), rs[1..], id);
    }
  }

  /** While only running reports have come, the row is active with no error and no end; the first end report decides it. */
  lemma {:induction false} EndDecides(s: State, rs: seq<Report>, id: Id, end: Update)
    requires id in s.jobs && Active(s.jobs[id]) && s.jobs[id].error == None && s.jobs[id].ended == None
    requires end.ToCompleted? || end.ToFailed?
    requires forall r :: r in rs ==> IsReport(r)
    requires forall r :: r in rs && IsEnd(r) && About(r, id, s.jobs[id].numExes) ==> r.u == end
    requires exists r :: r in rs && IsEnd(r) && About(r, id, s.jobs[id].numExes) && Known(s, r)
    ensures id in DeliverAll(s, rs).jobs
    ensures OutcomeOf(DeliverAll(s, rs).jobs[id]) == OutcomeOf(Changed(end, s.jobs[id]))
    decreases |rs|
  {
    var r := rs[0];
    var n := s.jobs[id].numExes;
    var s' := Deliver(s, r);
    assert rs == [r] + rs[1..];
    DeliverRow(s, r, id);
    if IsEnd(r) && About(r, id, n) && Known(s, r) {
      Settled(s', rs[1..], id);
    } else {
      var e :| e in rs && IsEnd(e) && About(e, id, n) && Known(s, e);
      assert e in rs[1..] && Known(s', e);
      EndDecides(s', rs[1..], id, end);
    }
  }

  /** A completed row whose execution's output is stored has that output. */
  predicate Collected(s: State, id: Id) {
    id in s.jobs && (s.jobs[id].status == Completed && (id, s.jobs[id].numExes) in s.outputs ==>
                       s.jobs[id].output == Some(s.outputs[(id, s.jobs[id].numExes)]))
  }

  lemma DeliverCollects(s: State, r: Report, id: Id)
    requires IsReport(r) && Collected(s, id)
    ensures Collected(Deliver(s, r), id) && Deliver(s, r).outputs == s.outputs
  {
    if Known(s, r) {
      var ids := Current(s, r.jobs);
      var s1 := Apply(s, UpdateStatus(ids, r.u));
      CurrentExactly(s, r.jobs, id);
      ChangedDid(r.u, s.jobs[id]);
      assert s1.jobs[id] == if id in ids && Allowed(r.u, s.jobs[id]) then Changed(r.u, s.jobs[id]) else s.jobs[id];
      OutputProcessed(s1, ids, id);
    }
  }

  /** Completions collect the outputs that are already stored, whatever the order of the messages. */
  lemma {:induction false} DeliverAllCollects(s: State, rs: seq<Report>, id: Id)
    requires Collected(s, id) && forall r :: r in rs ==> IsReport(r)
    ensures Collected(DeliverAll(s, rs), id) && DeliverAll(s, rs).outputs == s.outputs
    decreases |rs|
  {
    if rs != [] {
      DeliverCollects(s, rs[0], id);
      DeliverAllCollects(Deliver(s, rs[0]), rs[1..], id);
    }
  }

  /** A running report about the current execution of a queued job makes it RUNNING. */
  lemma RunningArrives(s: State, r: Report, id: Id)
    requires r.u.ToRunning? && Known(s, r) && id in s.jobs && About(r, id, s.jobs[id].numExes) && s.jobs[id].status == Queued
    ensures id in Deliver(s, r).jobs && Did(r.u, s.jobs[id], Deliver(s, r).jobs[id])
  {
    CurrentExactly(s, r.jobs, id);
    ChangedDid(r.u, s.jobs[id]);
  }

  /** What an end report leaves: a failure its error, both their time. */
  function Ending(u: Update): (o: Outcome)
    requires u.ToCompleted? || u.ToFailed?
  {
    if u.ToFailed? then Outcome(Failed, Some(u.cause), Some(u.when), Some(u.when))
    else Outcome(Completed, None, Some(u.when), Some(u.when))
  }

  /**
   From QUEUED, whatever the order, repetition and company of the messages: if the end reports about
   this execution agree and at least one is delivered, the row ends as after one running report
   followed by one end report, with that report's error and time, and a completed job has its
   execution's output if that is stored.
   */
  lemma AnyOrderAnyRepeat(steps: seq<Step>, rs: seq<Report>, id: Id, running: Report, end: Report)
    requires var s := Run(EMPTY, steps);
             && id in s.jobs && s.jobs[id].status == Queued
             && running.u.ToRunning? && IsEnd(end) && Known(s, running) && Known(s, end)
             && About(running, id, s.jobs[id].numExes) && About(end, id, s.jobs[id].numExes)
             && (forall r :: r in rs ==> IsReport(r))
             && (forall r :: r in rs && IsEnd(r) && About(r, id, s.jobs[id].numExes) ==> r.u == end.u)
             && end in rs
    ensures var s := Run(EMPTY, steps);
            && id in DeliverAll(s, rs).jobs && id in DeliverAll(s, [running, end]).jobs
            && OutcomeOf(DeliverAll(s, rs).jobs[id]) == OutcomeOf(DeliverAll(s, [running, end]).jobs[id]) == Ending(end.u)
            && Collected(DeliverAll(s, rs), id) && DeliverAll(s, rs).outputs == s.outputs
  {
    var s := Run(EMPTY, steps);
    RunKeeps(EMPTY, steps);
    assert JobInv(id, s.jobs[id], s.outputs);
    ChangedDid(end.u, s.jobs[id]);
    EndDecides(s, rs, id, end.u);
    EndDecides(s, [running, end], id, end.u);
    DeliverAllCollects(s, rs, id);
  }
}
