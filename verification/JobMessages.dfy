/**
 The message loop and the job lifecycle together: the loop delivers each report at least once, in no
 particular order, and the lifecycle's guards make that enough.
 */
module JobMessages {
  import opened Common
  import J = Jobs
  import D = JobDelivery
  import opened Messaging

  /** A command message: a report about job executions, or one that updates no job. */
  datatype Command = JobReport(report: D.Report) | Other(n: int)

  /** The reports whose effect was committed, in that order. */
  function AppliedReports(log: seq<Event<Command>>): (rs: seq<D.Report>)
    decreases |log|
  {
    if log == [] then []
    else
      var e := log[|log| - 1];
      AppliedReports(log[..|log| - 1]) + if e.Applied? && e.m.JobReport? then [e.m.report] else []
  }

  lemma {:induction false} AppliedReportsExactly(log: seq<Event<Command>>, r: D.Report)
    ensures r in AppliedReports(log) <==> Applied(JobReport(r)) in log
    decreases |log|
  {
    if log != [] {
      var n := |log| - 1;
      assert log == log[..n] + [log[n]];
      AppliedReportsExactly(log[..n], r);
    }
  }

  /** Only messages that were put or sent are applied. */
  ghost predicate AppliedCame(log: seq<Event<Command>>) {
    forall m :: Applied(m) in log ==> m in In(log)
  }

  ghost predicate AllConserved(s: State<Command>) {
    forall m :: Conserved(s, m)
  }

  lemma ExtendCame(log: seq<Event<Command>>, es: seq<Event<Command>>, m: Command)
    requires AppliedCame(log) && m in In(log)
    requires forall x :: Applied(x) in es ==> x == m
    ensures AppliedCame(log + es)
  {
    InJoin(log, es);
  }

  lemma SucceedCame(s: State<Command>, o: Outcome<Command>)
    requires s.ready != [] && s.ready[0] in In(s.log) && AppliedCame(s.log) && o.Succeeds?
    ensures AppliedCame(Handle(s, o).log)
  {
    var m := s.ready[0];
    var es := [Applied(m), Executed(m, o.news)] + Sents(Delivered(o));
    assert Handle(s, o).log == if Acks(o) then s.log + es + [Acked(m)] else s.log + es;
    ExtendCame(s.log, es, m);
    if Acks(o) {
      InJoin(s.log, es);
      ExtendCame(s.log + es, [Acked(m)], m);
    }
  }

  lemma HandleCame(s: State<Command>, o: Outcome<Command>)
    requires s.ready != [] && Conserved(s, s.ready[0]) && AppliedCame(s.log)
    ensures AppliedCame(Handle(s, o).log)
  {
    var m := s.ready[0];
    assert m in Held(s);
    assert m in In(s.log);
    match o
    case Fails(applied, _) => ExtendCame(s.log, if applied then [Applied(m)] else [], m);
    case Succeeds(_, _, _) => SucceedCame(s, o);
    case _ =>
  }

  lemma {:induction false} BatchCame(s: State<Command>, os: seq<Outcome<Command>>, n: nat)
    requires AllConserved(s) && AppliedCame(s.log)
    ensures AppliedCame(Batch(s, os, n).log)
    decreases n
  {
    if n > 0 && os != [] && s.ready != [] {
      HandleCame(s, os[0]);
      forall m ensures Conserved(Handle(s, os[0]), m) { HandleConserves(s, os[0], m); }
      if !Ends(os[0]) { BatchCame(Handle(s, os[0]), os[1..], n - 1); }
    }
  }

  lemma RoundCame(s: State<Command>, r: Round<Command>)
    requires AllConserved(s) && AppliedCame(s.log)
    ensures AppliedCame(Apply(s, r).log)
  {
    match r
    case Enqueue(m) => InJoin(s.log, [Put(m)]);
    case Receive(os) => BatchCame(s, os, BATCH_SIZE);
  }

  lemma {:induction false} RunCame(s: State<Command>, rs: seq<Round<Command>>)
    requires AllConserved(s) && s.unacked == [] && AppliedCame(s.log)
    ensures AppliedCame(Run(s, rs).log)
    decreases |rs|
  {
    if rs != [] {
      RoundCame(s, rs[0]);
      RoundKeeps(s, rs[0]);
      RunCame(Apply(s, rs[0]), rs[1..]);
    }
  }

  lemma RoundKeeps(s: State<Command>, r: Round<Command>)
    requires AllConserved(s) && s.unacked == []
    ensures AllConserved(Apply(s, r)) && Apply(s, r).unacked == []
  {
    forall m ensures Conserved(Apply(s, r), m) { RoundConserves(s, r, m); }
  }

  lemma AckedWasApplied(log: seq<Event<Command>>, m: Command)
    requires AllEarned(log) && Acked(m) in log
    ensures Applied(m) in log
  {
    var i :| 0 <= i < |log| && log[i] == Acked(m);
    assert Earned(log, i);
    var news :| EarnedBy(log, i, news);
    assert log[i - |news| - 2] == Applied(m);
  }

  /** Every message that came and is a report about the execution's end agrees with `end`. */
  ghost predicate Agree(log: seq<Event<Command>>, id: Id, exe: nat, end: D.Report) {
    forall m :: m in In(log) && m.JobReport? ==>
      D.IsReport(m.report) && (D.IsEnd(m.report) && D.About(m.report, id, exe) ==> m.report.u == end.u)
  }

  /**
   For a queued job: over any run of the message loop, with failures, exceptions, broken sends and
   redeliveries, once the loop has acknowledged the execution's end report the job's status, error, end
   time and last status change are those of one running report followed by one end report.
   */
  lemma AtLeastOnceIsEnough(steps: seq<J.Step>, rs: seq<Round<Command>>, id: Id, running: D.Report, end: D.Report)
    requires var s := J.Run(J.EMPTY, steps); var log := Run(Empty<Command>(), rs).log;
             && id in s.jobs && s.jobs[id].status == J.Queued
             && running.u.ToRunning? && D.IsEnd(end) && D.Known(s, running) && D.Known(s, end)
             && D.About(running, id, s.jobs[id].numExes) && D.About(end, id, s.jobs[id].numExes)
             && Agree(log, id, s.jobs[id].numExes, end)
             && Acked(JobReport(end)) in log
    ensures var s := J.Run(J.EMPTY, steps); var log := Run(Empty<Command>(), rs).log;
            var t := D.DeliverAll(s, AppliedReports(log));
            && id in t.jobs && id in D.DeliverAll(s, [running, end]).jobs
            && D.OutcomeOf(t.jobs[id]) == D.OutcomeOf(D.DeliverAll(s, [running, end]).jobs[id]) == D.Ending(end.u)
  {
    var s := J.Run(J.EMPTY, steps);
    var log := Run(Empty<Command>(), rs).log;
    AckedOnlyWhenDone(Empty<Command>(), rs);
    RunCame(Empty<Command>(), rs);
    AckedWasApplied(log, JobReport(end));
    var reports := AppliedReports(log);
    forall r | r in reports
      ensures D.IsReport(r) && (D.IsEnd(r) && D.About(r, id, s.jobs[id].numExes) ==> r.u == end.u)
    {
      AppliedReportsExactly(log, r);
    }
    AppliedReportsExactly(log, end);
    D.AnyOrderAnyRepeat(steps, reports, id, running, end);
  }
}
