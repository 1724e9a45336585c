/** The processor that queues one metrics job per day (scale/metrics/daily_metrics.py). Dates are day numbers. */
module DailyMetrics {
  import opened Common
  import Clock

  /** The days from `a` up to, not including, `b`; none when `b` is not later. */
  function Range(a: int, b: int): (r: seq<int>)
    ensures |r| == if b <= a then 0 else b - a
    ensures forall i :: 0 <= i < |r| ==> r[i] == a + i
  {
    if b <= a then [] else seq(b - a, i => a + i)
  }

  /** The days an event calls for: those since the event before it, or yesterday for the first. */
  function DaysFor(date: int, last: Option<int>, today: int): (days: seq<int>) {
    if last.Some? then Range(last.value, date) else [today - 1]
  }

  /**
   An event handed to the processor: its date, that of the event it is told came before, the date the
   processor reads, and how many days it queues before it is done or fails.
   */
  datatype Handled = Handled(date: int, last: Option<int>, today: int, queued: nat)

  function DaysOf(e: Handled): (days: seq<int>) { DaysFor(e.date, e.last, e.today) }

  function Take(s: seq<int>, n: nat): (r: seq<int>) { if n < |s| then s[..n] else s }

  /** Every day queued, in the order queued. */
  function Queued(events: seq<Handled>): (days: seq<int>)
    decreases |events|
  {
    if events == [] then []
    else
      var n := |events| - 1;
      Queued(events[..n]) + Take(DaysOf(events[n]), events[n].queued)
  }

  /** Events in date order, each told of the one directly before it. */
  ghost predicate InOrder(events: seq<Handled>) {
    forall i :: 0 <= i < |events| ==> Linked(events, i)
  }

  predicate Linked(events: seq<Handled>, i: int)
    requires 0 <= i < |events|
  {
    if i == 0 then events[i].last.None?
    else events[i].last == Some(events[i - 1].date) && events[i - 1].date <= events[i].date
  }

  predicate Finished(e: Handled) { e.queued >= |DaysOf(e)| }

  ghost predicate AllFinished(events: seq<Handled>) {
    forall i :: 0 <= i < |events| ==> Finished(events[i])
  }

  lemma PrefixInOrder(events: seq<Handled>, n: int)
    requires 0 <= n <= |events| && InOrder(events)
    ensures InOrder(events[..n])
  {
    forall i | 0 <= i < n ensures Linked(events[..n], i) { assert Linked(events, i); }
  }

  /** `day`, then the days from `a` up to, not including, `b`. */
  ghost predicate DayThen(days: seq<int>, day: int, a: int, b: int) {
    |days| == 1 + b - a > 0 && days[0] == day && forall i :: 0 < i < |days| ==> days[i] == a + i - 1
  }

  lemma DayThenMore(days: seq<int>, day: int, a: int, b: int, c: int)
    requires b <= c && DayThen(days, day, a, b)
    ensures DayThen(days + Range(b, c), day, a, c)
  {
  }

  /** Every day from `a` up to, not including, `b`, once each and in order. */
  ghost predicate EveryDay(days: seq<int>, a: int, b: int) {
    |days| == b - a && forall i :: 0 <= i < |days| ==> days[i] == a + i
  }

  lemma DayBefore(days: seq<int>, today: int, a: int, b: int)
    requires DayThen(days, today - 1, a, b)
    ensures EveryDay(days, a - 1, b) <==> today == a
  {
  }

  /** When every event was processed, the days after the first event's own are the whole range between the events. */
  lemma {:induction false} QueuedRange(events: seq<Handled>)
    requires events != [] && InOrder(events) && AllFinished(events)
    ensures DayThen(Queued(events), events[0].today - 1, events[0].date, events[|events| - 1].date)
    decreases |events|
  {
    var n := |events| - 1;
    assert Finished(events[n]) && Linked(events, n);
    if n == 0 {
      assert events[..0] == [];
    } else {
      PrefixInOrder(events, n);
      QueuedRange(events[..n]);
      DayThenMore(Queued(events[..n]), events[0].today - 1, events[0].date, events[n - 1].date, events[n].date);
    }
  }

  lemma TakeLength(e: Handled)
    ensures |Take(DaysOf(e), e.queued)| <= |DaysOf(e)|
    ensures |Take(DaysOf(e), e.queued)| == |DaysOf(e)| <==> Finished(e)
  {
  }

  lemma LastFinished(events: seq<Handled>)
    requires events != []
    ensures var n := |events| - 1; AllFinished(events[..n]) && Finished(events[n]) ==> AllFinished(events)
  {
    var n := |events| - 1;
    assert events == events[..n] + [events[n]];
  }

  /** A failed event leaves its missing days missing: later events do not go back for them. */
  lemma {:induction false} QueuedLength(events: seq<Handled>)
    requires events != [] && InOrder(events)
    ensures |Queued(events)| <= 1 + events[|events| - 1].date - events[0].date
    ensures |Queued(events)| == 1 + events[|events| - 1].date - events[0].date ==> AllFinished(events)
    decreases |events|
  {
    var n := |events| - 1;
    assert Linked(events, n);
    if n == 0 {
      assert events[..0] == [];
    } else {
      PrefixInOrder(events, n);
      QueuedLength(events[..n]);
      TakeLength(events[n]);
      LastFinished(events);
    }
  }

  /**
   The days queued are every day from the day before the first event to the day before the last, each
   once and in order, exactly when every event was fully processed and the first was processed on its
   own date; outages and repeated firings on one day make no difference.
   */
  lemma EveryDayOnce(events: seq<Handled>)
    requires events != [] && InOrder(events)
    ensures EveryDay(Queued(events), events[0].date - 1, events[|events| - 1].date) <==>
            AllFinished(events) && events[0].today == events[0].date
  {
    QueuedLength(events);
    if AllFinished(events) {
      QueuedRange(events);
      DayBefore(Queued(events), events[0].today, events[0].date, events[|events| - 1].date);
    }
  }

  /** An event of day 10 first processed on day 11 queues day 10, not day 9. */
  lemma LateStartMisses()
    ensures var events := [Handled(10, None, 11, 1)];
            InOrder(events) && AllFinished(events) && Queued(events) == [10] && !EveryDay(Queued(events), 9, 10)
  {
    var events := [Handled(10, None, 11, 1)];
    assert events[..0] == [];
    assert Queued(events)[0] == 10;
  }

  /** The event of day 8 fails after one of its three days; that of day 9 does not go back for days 6 and 7. */
  lemma FailureMisses()
    ensures var events := [Handled(5, None, 5, 1), Handled(8, Some(5), 8, 1), Handled(9, Some(8), 9, 1)];
            InOrder(events) && Queued(events) == [4, 5, 8] && !EveryDay(Queued(events), 4, 9)
  {
    var first, second, third := Handled(5, None, 5, 1), Handled(8, Some(5), 8, 1), Handled(9, Some(8), 9, 1);
    var events := [first, second, third];
    assert events[..2] == [first, second] && [first, second][..1] == [first] && [first][..0] == [];
    assert Queued([first]) == [4];
    assert DaysOf(second) == [5, 6, 7];
    assert Queued([first, second]) == [4] + [5, 6, 7][..1] == [4, 5];
    assert Queued(events) == [4, 5] + [8] == [4, 5, 8];
  }

  // ---- Fed by the clock ----

  function DayOf(t: int): (d: int) { t / Clock.DAY }

  /** What the processor meets when it is called: the date it reads, and how many days it queues before it is done or fails. */
  datatype Work = Work(today: int, queued: nat)

  /** A call handled: the dates are those of the event and of the one before it, as the clock passes them. */
  function HandledCall(c: Clock.Call, w: Work): (e: Handled) {
    Handled(DayOf(c.occurred), if c.last.None? then None else Some(DayOf(c.last.value)), w.today, w.queued)
  }

  function HandledCalls(calls: seq<Clock.Call>, work: seq<Work>): (events: seq<Handled>)
    requires |calls| == |work|
    ensures |events| == |calls| && forall i :: 0 <= i < |events| ==> events[i] == HandledCall(calls[i], work[i])
  {
    seq(|calls|, i requires 0 <= i < |calls| => HandledCall(calls[i], work[i]))
  }

  lemma CallsInOrder(calls: seq<Clock.Call>, work: seq<Work>, stamps: seq<int>)
    requires |calls| == |work| && Clock.Follows(calls, stamps) && Clock.Sorted(stamps)
    ensures InOrder(HandledCalls(calls, work))
  {
    var events := HandledCalls(calls, work);
    forall i | 0 <= i < |events| ensures Linked(events, i) {
      assert events[i] == HandledCall(calls[i], work[i]);
      if i > 0 {
        assert events[i - 1] == HandledCall(calls[i - 1], work[i - 1]);
        assert stamps[i - 1] <= stamps[i];
      }
    }
  }

  /**
   Over any run of the clock, whatever the other rules, the outages and the repeated firings on one day: the
   days the processor queues in its calls are every day from the one before the first event to the one
   before the last, once each and in order, exactly when each call was processed in full and the first on
   its event's own date.
   */
  lemma ClockCoversEveryDay(processors: map<string, seq<Id>>, rules: seq<Clock.Rule>, ticks: seq<Clock.Tick>,
                            p: Id, id: Id, calls: seq<Clock.Call>, work: seq<Work>)
    requires |rules| == |ticks| && Clock.Ordered([], ticks) && Clock.RegisteredOnce(processors, rules, p, id)
    requires calls == Clock.CallsTo(Clock.StepRules(processors, Clock.Log(map[], []), rules, ticks).calls, p, id)
    requires calls != [] && |work| == |calls|
    ensures var events := HandledCalls(calls, work);
            EveryDay(Queued(events), DayOf(calls[0].occurred) - 1, DayOf(calls[|calls| - 1].occurred)) <==>
            AllFinished(events) && work[0].today == DayOf(calls[0].occurred)
  {
    var log := Clock.StepRules(processors, Clock.Log(map[], []), rules, ticks);
    var now := LastStamp(ticks);
    Clock.CallsFollowEvents(processors, rules, ticks, p, id, now);
    CallsInOrder(calls, work, Clock.EventsOf(log.events, id));
    EveryDayOnce(HandledCalls(calls, work));
  }

  lemma LastStamp(ticks: seq<Clock.Tick>) returns (now: int)
    requires Clock.Ordered([], ticks)
    ensures forall i :: 0 <= i < |ticks| ==> ticks[i].stamp <= now
  {
    now := if ticks == [] then 0 else ticks[|ticks| - 1].stamp;
  }

  class DailyMetricsProcessor {
    var queue: seq<int>

    constructor ()
      ensures queue == []
    {
      queue := [];
    }

    /** `process_event`; queueing raises once `limit` jobs have been queued. */
    method ProcessEvent(date: int, last: Option<int>, today: int, limit: nat) returns (ok: bool)
      modifies this
      ensures queue == old(queue) + Take(DaysFor(date, last, today), limit)
      ensures ok <==> limit >= |DaysFor(date, last, today)|
    {
      var days := DaysFor(date, last, today);
      for i := 0 to |days|
        invariant i <= limit && queue == old(queue) + days[..i]
      {
        if i == limit {
          return false;
        }
        queue := queue + [days[i]];
      }
      ok := true;
    }
  }
}
