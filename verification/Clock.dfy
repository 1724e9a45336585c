/**
 The clock that fires trigger rules on a schedule (scale/job/clock.py). Times and durations are
 integer microseconds of UTC, so a day starts at every multiple of `DAY`.
 */
module Clock {
  import opened Common

  const MINUTE := 60_000_000
  const HOUR := 3_600_000_000
  const DAY := 86_400_000_000
  const MINUTES_PER_DAY := 1440

  lemma Units()
    ensures MINUTE == 60 * 1_000_000 && HOUR == 60 * 60 * 1_000_000 && DAY == 24 * 60 * 60 * 1_000_000
    ensures MINUTES_PER_DAY == 24 * 60
  {
  }

  function FloorTo(t: int, unit: int): (r: int)
    requires unit > 0
    ensures r <= t < r + unit && r % unit == 0
  {
    FloorToMultiple(t, unit);
    t - t % unit
  }

  lemma FloorToMultiple(t: int, unit: int)
    requires unit > 0
    ensures (t - t % unit) % unit == 0
  {
    assert t - t % unit == unit * (t / unit);
    MulMod(t / unit, unit);
  }

  lemma MulMod(k: int, d: int)
    requires d > 0
    ensures (d * k) % d == 0
  {
    DivUnique(d * k, d, k, 0);
  }

  lemma DivUnique(x: int, d: int, q: int, r: int)
    requires d > 0 && x == d * q + r && 0 <= r < d
    ensures x / d == q && x % d == r
  {
    var e := x / d - q;
    assert d * e == r - x % d;
    MulBounds(d, e);
  }

  lemma MulBounds(d: int, e: int)
    requires d > 0
    ensures e >= 1 ==> d * e >= d
    ensures e <= -1 ==> d * e <= -d
  {
  }

  function CeilDiv(x: int, d: int): (r: int)
    requires d > 0
  {
    (x + d - 1) / d
  }

  /** Rounding up to a multiple of `d` gives `x` back exactly when `x` is one. */
  lemma CeilExact(x: int, d: int)
    requires d > 0
    ensures d * CeilDiv(x, d) >= x
    ensures d * CeilDiv(x, d) <= x <==> x % d == 0
  {
    var q, r := x / d, x % d;
    if r == 0 {
      DivUnique(x + d - 1, d, q, d - 1);
    } else {
      assert d * (q + 1) == d * q + d;
      DivUnique(x + d - 1, d, q + 1, r - 1);
    }
  }

  /** `_check_schedule` at time `now`, for a rule whose latest event occurred at `last`. */
  predicate CheckSchedule(now: int, duration: int, last: Option<int>)
    requires duration > 0
  {
    var current := FloorTo(now, MINUTE);
    var base := FloorTo(current, DAY);
    if last.None? then
      if duration < DAY then base + duration <= current else true
    else
      var elapsed := current - last.value;
      if ((duration >= DAY && elapsed >= DAY) || (duration >= HOUR && elapsed >= HOUR)) && elapsed >= duration then true
      else
        var target := base + duration * CeilDiv(current - base, duration);
        last.value + duration >= target && target <= current
  }

  function SinceMidnight(now: int): (r: int) { FloorTo(now, MINUTE) % DAY }

  function Elapsed(now: int, last: int): (r: int) { FloorTo(now, MINUTE) - last }

  /** The rounding-based test, without the rounding. */
  lemma ClosedForm(now: int, duration: int, last: int)
    requires duration > 0
    ensures CheckSchedule(now, duration, Some(last)) <==>
            || (duration >= HOUR && Elapsed(now, last) >= duration)
            || (SinceMidnight(now) % duration == 0 && Elapsed(now, last) <= duration)
  {
    CeilExact(SinceMidnight(now), duration);
  }

  // ---- A rule over many ticks ----

  /** One tick: when the schedule is checked, and the stamp an event would get. */
  datatype Tick = Tick(now: int, stamp: int)

  /** The newest event of a rule, whatever order its events are stored in. */
  function Latest(events: seq<int>): (r: Option<int>)
    ensures r.None? <==> events == []
    ensures r.Some? ==> r.value in events && forall e :: e in events ==> e <= r.value
  {
    if events == [] then None
    else
      var rest := Latest(events[1..]);
      assert events == [events[0]] + events[1..];
      if rest.Some? && rest.value >= events[0] then rest else Some(events[0])
  }

  function TickRule(events: seq<int>, duration: int, tick: Tick): (r: seq<int>)
    requires duration > 0
  {
    if CheckSchedule(tick.now, duration, Latest(events)) then events + [tick.stamp] else events
  }

  function RunTicks(events: seq<int>, duration: int, ticks: seq<Tick>): (r: seq<int>)
    requires duration > 0
    decreases |ticks|
  {
    if ticks == [] then events
    else TickRule(RunTicks(events, duration, ticks[..|ticks| - 1]), duration, ticks[|ticks| - 1])
  }

  lemma RunTicksStep(events: seq<int>, duration: int, ticks: seq<Tick>, i: int)
    requires duration > 0 && 0 <= i < |ticks|
    ensures RunTicks(events, duration, ticks[..i + 1]) ==
            TickRule(RunTicks(events, duration, ticks[..i]), duration, ticks[i])
  {
    assert ticks[..i + 1][..i] == ticks[..i];
  }

  predicate FiredAt(events: seq<int>, duration: int, ticks: seq<Tick>, i: int)
    requires duration > 0 && 0 <= i < |ticks|
  {
    CheckSchedule(ticks[i].now, duration, Latest(RunTicks(events, duration, ticks[..i])))
  }

  /** Time does not run backwards: an event is stamped after its check and before the next tick. */
  ghost predicate Ordered(events: seq<int>, ticks: seq<Tick>) {
    && (forall e, i :: e in events && 0 <= i < |ticks| ==> e <= ticks[i].now)
    && (forall i :: 0 <= i < |ticks| ==> ticks[i].now <= ticks[i].stamp)
    && (forall i, j :: 0 <= i < j < |ticks| ==> ticks[i].stamp <= ticks[j].now)
  }

  function MinuteOf(t: int): (m: int) { t / MINUTE }

  ghost predicate EveryMinute(ticks: seq<Tick>) {
    forall i :: 0 <= i < |ticks| ==> MinuteOf(ticks[i].now) == MinuteOf(ticks[0].now) + i
  }

  /** The minute is a multiple of `d` minutes past its day's midnight. */
  predicate OnGrid(minute: int, d: int)
    requires d > 0
  {
    minute % MINUTES_PER_DAY % d == 0
  }

  lemma NextMultiple(r: int, d: int) returns (x: int)
    requires d > 0
    ensures r < x <= r + d && x % d == 0
  {
    x := d * (r / d + 1);
    assert x == d * (r / d) + d;
    MulMod(r / d + 1, d);
  }

  /** Any `d` minutes in a row hold one on the grid, since the last gap of a day is no longer than the others. */
  lemma GridGap(m: int, d: int) returns (a: int)
    requires 1 <= d <= MINUTES_PER_DAY
    ensures m < a <= m + d && OnGrid(a, d)
  {
    var r := m % MINUTES_PER_DAY;
    var x := NextMultiple(r, d);
    if x < MINUTES_PER_DAY {
      a := m - r + x;
      DivUnique(a, MINUTES_PER_DAY, m / MINUTES_PER_DAY, x);
    } else {
      a := m - r + MINUTES_PER_DAY;
      DivUnique(a, MINUTES_PER_DAY, m / MINUTES_PER_DAY + 1, 0);
      DivUnique(0, d, 0, 0);
    }
  }

  lemma ScaleMod(x: int, d: int)
    requires d > 0
    ensures (x * MINUTE) % (d * MINUTE) == (x % d) * MINUTE
  {
    assert x == d * (x / d) + x % d;
    assert x * MINUTE == (d * MINUTE) * (x / d) + (x % d) * MINUTE;
    DivUnique(x * MINUTE, d * MINUTE, x / d, (x % d) * MINUTE);
  }

  lemma GridTest(now: int, d: int)
    requires d > 0
    ensures SinceMidnight(now) % (d * MINUTE) == 0 <==> OnGrid(MinuteOf(now), d)
  {
    var m := MinuteOf(now);
    assert FloorTo(now, MINUTE) == m * MINUTE;
    ScaleMod(m, MINUTES_PER_DAY);
    assert MINUTES_PER_DAY * MINUTE == DAY;
    ScaleMod(m % MINUTES_PER_DAY, d);
  }

  /** The decision at one tick, when the last event was made at minute `j` or later and no grid minute has passed since. */
  lemma NextOnGrid(now: int, d: int, last: int, j: int)
    requires 1 <= d <= MINUTES_PER_DAY
    requires j * MINUTE <= last <= now && j < MinuteOf(now)
    requires forall m :: j < m < MinuteOf(now) ==> !OnGrid(m, d)
    ensures CheckSchedule(now, d * MINUTE, Some(last)) <==> OnGrid(MinuteOf(now), d)
  {
    ClosedForm(now, d * MINUTE, last);
    GridTest(now, d);
    var k := MinuteOf(now);
    var a := GridGap(j, d);
    assert k <= a;
    assert FloorTo(now, MINUTE) == k * MINUTE;
    assert Elapsed(now, last) <= (k - j) * MINUTE <= d * MINUTE;
    if !OnGrid(k, d) { assert k - j < d; }
  }

  lemma LatestAppend(events: seq<int>, e: int)
    requires forall x :: x in events ==> x <= e
    ensures Latest(events + [e]) == Some(e)
  {
    assert e in events + [e];
  }

  lemma {:induction false} RunTicksPast(events: seq<int>, duration: int, ticks: seq<Tick>, i: int)
    requires duration > 0 && Ordered(events, ticks) && 0 <= i < |ticks|
    ensures forall e :: e in RunTicks(events, duration, ticks[..i]) ==> e <= ticks[i].now
    decreases i
  {
    if i > 0 {
      RunTicksStep(events, duration, ticks, i - 1);
      RunTicksPast(events, duration, ticks, i - 1);
    }
  }

  lemma StillNewest(events: seq<int>, duration: int, ticks: seq<Tick>, i: int)
    requires duration > 0 && 0 <= i < |ticks| && !FiredAt(events, duration, ticks, i)
    ensures RunTicks(events, duration, ticks[..i + 1]) == RunTicks(events, duration, ticks[..i])
  {
    RunTicksStep(events, duration, ticks, i);
  }

  lemma NewestAfterFiring(events: seq<int>, duration: int, ticks: seq<Tick>, i: int)
    requires duration > 0 && Ordered(events, ticks) && 0 <= i < |ticks| && FiredAt(events, duration, ticks, i)
    ensures Latest(RunTicks(events, duration, ticks[..i + 1])) == Some(ticks[i].stamp)
  {
    RunTicksStep(events, duration, ticks, i);
    RunTicksPast(events, duration, ticks, i);
    LatestAppend(RunTicks(events, duration, ticks[..i]), ticks[i].stamp);
  }

  /** No tick strictly between `j` and `i` is on the grid. */
  ghost predicate OffGrid(ticks: seq<Tick>, d: int, j: int, i: int)
    requires d > 0 && 0 <= j <= i <= |ticks|
  {
    forall k :: j < k < i ==> !OnGrid(MinuteOf(ticks[k].now), d)
  }

  lemma OffGridMore(ticks: seq<Tick>, d: int, j: int, i: int)
    requires d > 0 && 0 <= j < i < |ticks| && OffGrid(ticks, d, j, i) && !OnGrid(MinuteOf(ticks[i].now), d)
    ensures OffGrid(ticks, d, j, i + 1)
  {
  }

  /** Before tick `i` the newest event is that of some tick `j`, and no tick between them was on the grid. */
  lemma {:induction false} SinceLastEvent(events: seq<int>, d: int, ticks: seq<Tick>, f: int, i: int) returns (j: int)
    requires 1 <= d <= MINUTES_PER_DAY && Ordered(events, ticks) && EveryMinute(ticks)
    requires 0 <= f < i < |ticks| && FiredAt(events, d * MINUTE, ticks, f)
    ensures f <= j < i
    ensures Latest(RunTicks(events, d * MINUTE, ticks[..i])) == Some(ticks[j].stamp)
    ensures OffGrid(ticks, d, j, i)
    decreases i
  {
    var p := i - 1;
    assert ticks[..p + 1] == ticks[..i];
    if FiredAt(events, d * MINUTE, ticks, p) {
      j := p;
      NewestAfterFiring(events, d * MINUTE, ticks, j);
    } else {
      j := SinceLastEvent(events, d, ticks, f, p);
      StillNewest(events, d * MINUTE, ticks, p);
      TickOnGrid(events, d, ticks, p, j);
      OffGridMore(ticks, d, j, p);
    }
  }

  lemma TickOnGrid(events: seq<int>, d: int, ticks: seq<Tick>, i: int, j: int)
    requires 1 <= d <= MINUTES_PER_DAY && Ordered(events, ticks) && EveryMinute(ticks)
    requires 0 <= j < i < |ticks|
    requires Latest(RunTicks(events, d * MINUTE, ticks[..i])) == Some(ticks[j].stamp)
    requires OffGrid(ticks, d, j, i)
    ensures FiredAt(events, d * MINUTE, ticks, i) <==> OnGrid(MinuteOf(ticks[i].now), d)
  {
    var m0 := MinuteOf(ticks[0].now);
    forall m | MinuteOf(ticks[j].now) < m < MinuteOf(ticks[i].now) ensures !OnGrid(m, d) {
      assert MinuteOf(ticks[m - m0].now) == m;
    }
    NextOnGrid(ticks[i].now, d, ticks[j].stamp, MinuteOf(ticks[j].now));
  }

  /**
   With one tick in every minute and a duration of `d` whole minutes, at most a day, once a rule has
   fired it fires at exactly the ticks whose minute is a multiple of `d` past midnight: the schedule
   aligns itself after its first event and never drifts.
   */
  lemma NeverDrifts(events: seq<int>, d: int, ticks: seq<Tick>, f: int, i: int)
    requires 1 <= d <= MINUTES_PER_DAY && Ordered(events, ticks) && EveryMinute(ticks)
    requires 0 <= f < i < |ticks| && FiredAt(events, d * MINUTE, ticks, f)
    ensures FiredAt(events, d * MINUTE, ticks, i) <==> OnGrid(MinuteOf(ticks[i].now), d)
  {
    var j := SinceLastEvent(events, d, ticks, f, i);
    TickOnGrid(events, d, ticks, i, j);
  }

  /** Until a tick fires, a rule's events stay what they were. */
  lemma {:induction false} QuietUntil(events: seq<int>, duration: int, ticks: seq<Tick>, i: int)
    requires duration > 0 && 0 <= i <= |ticks|
    requires forall j :: 0 <= j < i ==> !FiredAt(events, duration, ticks, j)
    ensures RunTicks(events, duration, ticks[..i]) == events
    decreases i
  {
    if i > 0 {
      assert !FiredAt(events, duration, ticks, i - 1);
      StillNewest(events, duration, ticks, i - 1);
      QuietUntil(events, duration, ticks, i - 1);
    }
  }

  /** When a rule without events is due: at once for a day or more, otherwise `duration` after midnight. */
  predicate Ready(now: int, duration: int) { duration >= DAY || SinceMidnight(now) >= duration }

  lemma FirstCheck(now: int, duration: int)
    requires duration > 0
    ensures CheckSchedule(now, duration, None) <==> Ready(now, duration)
  {
    var current := FloorTo(now, MINUTE);
    assert FloorTo(current, DAY) == current - current % DAY;
  }

  /** A new rule's first event comes at the first tick that finds it ready, and at no other. */
  lemma FirstEvent(duration: int, ticks: seq<Tick>, i: int)
    requires duration > 0 && 0 <= i < |ticks|
    requires forall j :: 0 <= j < i ==> !Ready(ticks[j].now, duration)
    ensures RunTicks([], duration, ticks[..i]) == []
    ensures FiredAt([], duration, ticks, i) <==> Ready(ticks[i].now, duration)
  {
    NotReadyYet(duration, ticks, i);
    FirstCheck(ticks[i].now, duration);
  }

  lemma {:induction false} NotReadyYet(duration: int, ticks: seq<Tick>, i: int)
    requires duration > 0 && 0 <= i <= |ticks|
    requires forall j :: 0 <= j < i ==> !Ready(ticks[j].now, duration)
    ensures RunTicks([], duration, ticks[..i]) == []
    decreases i
  {
    if i > 0 {
      NotReadyYet(duration, ticks, i - 1);
      RunTicksStep([], duration, ticks, i - 1);
      FirstCheck(ticks[i - 1].now, duration);
    }
  }

  lemma {:induction false} FirstReady(duration: int, ticks: seq<Tick>, k: int) returns (i: int)
    requires 0 <= k < |ticks| && Ready(ticks[k].now, duration)
    ensures 0 <= i <= k && Ready(ticks[i].now, duration)
    ensures forall j :: 0 <= j < i ==> !Ready(ticks[j].now, duration)
    decreases k
  {
    if j :| 0 <= j < k && Ready(ticks[j].now, duration) { i := FirstReady(duration, ticks, j); } else { i := k; }
  }

  /** With one tick in every minute, a new rule of at most a day fires within the first day. */
  lemma FiresWithinDay(d: int, ticks: seq<Tick>) returns (i: int)
    requires 1 <= d <= MINUTES_PER_DAY && EveryMinute(ticks) && |ticks| >= MINUTES_PER_DAY
    ensures 0 <= i < MINUTES_PER_DAY && FiredAt([], d * MINUTE, ticks, i)
  {
    var m0 := MinuteOf(ticks[0].now);
    var k := MINUTES_PER_DAY - 1 - m0 % MINUTES_PER_DAY;
    DivUnique(m0 + k, MINUTES_PER_DAY, m0 / MINUTES_PER_DAY, MINUTES_PER_DAY - 1);
    assert MinuteOf(ticks[k].now) % MINUTES_PER_DAY == MINUTES_PER_DAY - 1;
    LastMinute(ticks[k].now, d);
    i := FirstReady(d * MINUTE, ticks, k);
    FirstEvent(d * MINUTE, ticks, i);
  }

  lemma LastMinute(now: int, d: int)
    requires 1 <= d <= MINUTES_PER_DAY && MinuteOf(now) % MINUTES_PER_DAY == MINUTES_PER_DAY - 1
    ensures Ready(now, d * MINUTE)
  {
    assert FloorTo(now, MINUTE) == MinuteOf(now) * MINUTE;
    ScaleMod(MinuteOf(now), MINUTES_PER_DAY);
    assert MINUTES_PER_DAY * MINUTE == DAY;
  }

  /** After any outage, a schedule of an hour or more has fired by the first tick at or past its duration. */
  lemma RecoversAfterOutage(events: seq<int>, duration: int, ticks: seq<Tick>, i: int, last: int)
    requires duration >= 3_600_000_000 && 0 <= i < |ticks|
    requires Latest(events) == Some(last) && Elapsed(ticks[i].now, last) >= duration
    ensures exists j :: 0 <= j <= i && FiredAt(events, duration, ticks, j)
  {
    if forall j :: 0 <= j < i ==> !FiredAt(events, duration, ticks, j) {
      QuietUntil(events, duration, ticks, i);
      ClosedForm(ticks[i].now, duration, last);
      assert FiredAt(events, duration, ticks, i);
    }
  }

  /**
   A schedule of less than an hour fires again exactly when some tick falls on a multiple of its
   duration past midnight before more than the duration has passed since its last event; once that
   window is missed it never fires again.
   */
  lemma ShortScheduleStops(events: seq<int>, duration: int, ticks: seq<Tick>, last: int)
    requires 0 < duration < 3_600_000_000 && Latest(events) == Some(last)
    ensures RunTicks(events, duration, ticks) != events <==>
            exists i :: 0 <= i < |ticks| && InWindow(ticks[i].now, duration, last)
  {
    if exists i :: 0 <= i < |ticks| && InWindow(ticks[i].now, duration, last) {
      var i :| 0 <= i < |ticks| && InWindow(ticks[i].now, duration, last);
      if forall j :: 0 <= j < i ==> !FiredAt(events, duration, ticks, j) {
        QuietUntil(events, duration, ticks, i);
        ClosedForm(ticks[i].now, duration, last);
        assert FiredAt(events, duration, ticks, i);
      }
      var j :| 0 <= j <= i && FiredAt(events, duration, ticks, j);
      FiringShows(events, duration, ticks, j, |ticks|);
    } else {
      forall i | 0 <= i < |ticks| ensures !FiredAt(events, duration, ticks, i) {
        MissedWindow(events, duration, ticks, i, last);
      }
      QuietUntil(events, duration, ticks, |ticks|);
    }
    assert ticks[..|ticks|] == ticks;
  }

  /** A half-hour schedule that fired at midnight and is next looked at after 31 minutes, and then on the hour, stays silent. */
  lemma HalfHourStops()
    ensures var ticks := [Tick(31 * MINUTE, 31 * MINUTE), Tick(60 * MINUTE, 60 * MINUTE)];
            Ordered([0], ticks) && RunTicks([0], 30 * MINUTE, ticks) == [0]
  {
    var ticks := [Tick(31 * MINUTE, 31 * MINUTE), Tick(60 * MINUTE, 60 * MINUTE)];
    assert FloorTo(31 * MINUTE, MINUTE) == 31 * MINUTE && FloorTo(60 * MINUTE, MINUTE) == 60 * MINUTE;
    assert !InWindow(ticks[0].now, 30 * MINUTE, 0) && !InWindow(ticks[1].now, 30 * MINUTE, 0);
    ShortScheduleStops([0], 30 * MINUTE, ticks, 0);
  }

  predicate InWindow(now: int, duration: int, last: int)
    requires duration > 0
  {
    SinceMidnight(now) % duration == 0 && Elapsed(now, last) <= duration
  }

  lemma {:induction false} MissedWindow(events: seq<int>, duration: int, ticks: seq<Tick>, i: int, last: int)
    requires 0 < duration < HOUR && Latest(events) == Some(last) && 0 <= i < |ticks|
    requires forall j :: 0 <= j < |ticks| ==> !InWindow(ticks[j].now, duration, last)
    ensures !FiredAt(events, duration, ticks, i)
    decreases i
  {
    forall j | 0 <= j < i ensures !FiredAt(events, duration, ticks, j) {
      MissedWindow(events, duration, ticks, j, last);
    }
    QuietUntil(events, duration, ticks, i);
    ClosedForm(ticks[i].now, duration, last);
  }

  lemma {:induction false} FiringShows(events: seq<int>, duration: int, ticks: seq<Tick>, j: int, i: int)
    requires duration > 0 && 0 <= j < i <= |ticks| && FiredAt(events, duration, ticks, j)
    ensures |RunTicks(events, duration, ticks[..i])| > |events|
    decreases i
  {
    RunTicksStep(events, duration, ticks, i - 1);
    RunTicksGrow(events, duration, ticks[..i - 1]);
    if j < i - 1 { FiringShows(events, duration, ticks, j, i - 1); }
  }

  lemma {:induction false} RunTicksGrow(events: seq<int>, duration: int, ticks: seq<Tick>)
    requires duration > 0
    ensures |RunTicks(events, duration, ticks)| >= |events|
    decreases |ticks|
  {
    if ticks != [] { RunTicksGrow(events, duration, ticks[..|ticks| - 1]); }
  }

  // ---- The clock process ----

  /** A trigger rule; `duration` is what parsing its schedule gives. */
  datatype Rule = Rule(id: Id, name: string, eventType: string, schedule: string, duration: Option<int>)

  datatype ClockError = UnknownProcessor | MissingEventType | MissingSchedule | InvalidSchedule

  /** A processor being handed an event, with the event before it. */
  datatype Call = Call(processor: Id, rule: Id, occurred: int, last: Option<int>)

  function Validated(processors: map<string, seq<Id>>, rule: Rule): (r: Result<int, ClockError>)
    ensures r.Ok? ==> r.value > 0 && rule.name in processors
  {
    if rule.name !in processors then Err(UnknownProcessor)
    else if rule.eventType == "" then Err(MissingEventType)
    else if rule.schedule == "" then Err(MissingSchedule)
    else if rule.duration.None? || rule.duration.value <= 0 then Err(InvalidSchedule)
    else Ok(rule.duration.value)
  }

  /** A rule that names a registered processor, an event type, a schedule, and a duration that is not zero. */
  predicate Sound(processors: map<string, seq<Id>>, rule: Rule) {
    && rule.name in processors && |rule.eventType| > 0 && |rule.schedule| > 0
    && rule.duration.Some? && rule.duration.value > 0
  }

  /** Exactly the sound rules pass validation, with their own duration; the first fault found decides the error. */
  lemma ValidatedExactly(processors: map<string, seq<Id>>, rule: Rule)
    ensures var r := Validated(processors, rule);
            && (r.Ok? <==> Sound(processors, rule)) && (r.Ok? ==> r.value == rule.duration.value)
            && (r == Err(UnknownProcessor) <==> rule.name !in processors)
            && (r == Err(MissingEventType) <==> rule.name in processors && rule.eventType == "")
            && (r == Err(MissingSchedule) <==> rule.name in processors && rule.eventType != "" && rule.schedule == "")
  {
  }

  function EventsOf(events: map<Id, seq<int>>, id: Id): (r: seq<int>) {
    if id in events then events[id] else []
  }

  predicate Due(processors: map<string, seq<Id>>, past: seq<int>, rule: Rule, tick: Tick) {
    Validated(processors, rule).Ok? && CheckSchedule(tick.now, Validated(processors, rule).value, Latest(past))
  }

  /** A rule's events after a tick; a rule that does not validate is logged and skipped. */
  function AfterTick(processors: map<string, seq<Id>>, past: seq<int>, rule: Rule, tick: Tick): (r: seq<int>) {
    var checked := Validated(processors, rule);
    if checked.Ok? then TickRule(past, checked.value, tick) else past
  }

  function Invocations(ps: seq<Id>, rule: Id, occurred: int, last: Option<int>): (r: seq<Call>)
    decreases |ps|
  {
    if ps == [] then []
    else Invocations(ps[..|ps| - 1], rule, occurred, last) + [Call(ps[|ps| - 1], rule, occurred, last)]
  }

  /** Each processor is called once, in the order registered. */
  lemma {:induction false} InvocationsAt(ps: seq<Id>, rule: Id, occurred: int, last: Option<int>)
    ensures var calls := Invocations(ps, rule, occurred, last);
            |calls| == |ps| && forall i :: 0 <= i < |ps| ==> calls[i] == Call(ps[i], rule, occurred, last)
    decreases |ps|
  {
    if ps != [] { InvocationsAt(ps[..|ps| - 1], rule, occurred, last); }
  }

  /** What the clock writes: the events of each rule, and the processor calls made. */
  datatype Log = Log(events: map<Id, seq<int>>, calls: seq<Call>)

  /** `_check_rule` with the outcome of its validation ignored, as `perform_tick` does. */
  function StepRule(processors: map<string, seq<Id>>, log: Log, rule: Rule, tick: Tick): (r: Log) {
    var past := EventsOf(log.events, rule.id);
    if Due(processors, past, rule, tick)
    then Log(log.events[rule.id := past + [tick.stamp]],
             log.calls + Invocations(processors[rule.name], rule.id, tick.stamp, Latest(past)))
    else log
  }

  function StepRules(processors: map<string, seq<Id>>, log: Log, rules: seq<Rule>, ticks: seq<Tick>): (r: Log)
    requires |rules| == |ticks|
    decreases |rules|
  {
    if rules == [] then log
    else
      var n := |rules| - 1;
      StepRule(processors, StepRules(processors, log, rules[..n], ticks[..n]), rules[n], ticks[n])
  }

  lemma {:induction false} OtherRule(processors: map<string, seq<Id>>, log: Log, rules: seq<Rule>, ticks: seq<Tick>, id: Id)
    requires |rules| == |ticks| && forall i :: 0 <= i < |rules| ==> rules[i].id != id
    ensures EventsOf(StepRules(processors, log, rules, ticks).events, id) == EventsOf(log.events, id)
    decreases |rules|
  {
    if rules != [] {
      var n := |rules| - 1;
      OtherRule(processors, log, rules[..n], ticks[..n], id);
    }
  }

  /** In a tick over many rules each rule fares as if it were alone, whichever others fire or fail to validate. */
  lemma {:induction false} RulesIndependent(processors: map<string, seq<Id>>, log: Log, rules: seq<Rule>, ticks: seq<Tick>, i: int)
    requires |rules| == |ticks| && 0 <= i < |rules|
    requires forall j, k :: 0 <= j < k < |rules| ==> rules[j].id != rules[k].id
    ensures EventsOf(StepRules(processors, log, rules, ticks).events, rules[i].id) ==
            AfterTick(processors, EventsOf(log.events, rules[i].id), rules[i], ticks[i])
    decreases |rules|
  {
    var n := |rules| - 1;
    if i == n {
      OtherRule(processors, log, rules[..n], ticks[..n], rules[n].id);
    } else {
      RulesIndependent(processors, log, rules[..n], ticks[..n], i);
    }
  }

  /** The ticks at which the rule was looked at. */
  function TicksOf(rules: seq<Rule>, ticks: seq<Tick>, id: Id): (r: seq<Tick>)
    requires |rules| == |ticks|
    decreases |rules|
  {
    if rules == [] then []
    else
      var n := |rules| - 1;
      TicksOf(rules[..n], ticks[..n], id) + if rules[n].id == id then [ticks[n]] else []
  }

  lemma StepRuleEvents(processors: map<string, seq<Id>>, log: Log, rule: Rule, tick: Tick, id: Id)
    ensures EventsOf(StepRule(processors, log, rule, tick).events, id) ==
            var past := EventsOf(log.events, id);
            if rule.id != id || !Sound(processors, rule) then past else TickRule(past, rule.duration.value, tick)
  {
    ValidatedExactly(processors, rule);
  }

  lemma RunTicksLast(events: seq<int>, duration: int, ticks: seq<Tick>, tick: Tick)
    requires duration > 0
    ensures RunTicks(events, duration, ticks + [tick]) == TickRule(RunTicks(events, duration, ticks), duration, tick)
  {
    assert (ticks + [tick])[..|ticks|] == ticks;
  }

  /**
   Over any run of the clock over any rules: the events of a sound rule are those of its own schedule over the
   ticks at which it was looked at, so what holds of `RunTicks` holds of the clock; a faulty rule gets none.
   */
  lemma {:induction false} ClockRunsSchedule(processors: map<string, seq<Id>>, log: Log, rules: seq<Rule>, ticks: seq<Tick>, rule: Rule)
    requires |rules| == |ticks| && forall i :: 0 <= i < |rules| && rules[i].id == rule.id ==> rules[i] == rule
    ensures EventsOf(StepRules(processors, log, rules, ticks).events, rule.id) ==
            if Sound(processors, rule)
            then RunTicks(EventsOf(log.events, rule.id), rule.duration.value, TicksOf(rules, ticks, rule.id))
            else EventsOf(log.events, rule.id)
    decreases |rules|
  {
    if rules != [] {
      var n := |rules| - 1;
      ClockRunsSchedule(processors, log, rules[..n], ticks[..n], rule);
      StepRuleEvents(processors, StepRules(processors, log, rules[..n], ticks[..n]), rules[n], ticks[n], rule.id);
      if rules[n].id == rule.id {
        if Sound(processors, rule) {
          RunTicksLast(EventsOf(log.events, rule.id), rule.duration.value, TicksOf(rules[..n], ticks[..n], rule.id), ticks[n]);
        }
      } else {
        assert TicksOf(rules, ticks, rule.id) == TicksOf(rules[..n], ticks[..n], rule.id);
      }
    }
  }

  // ---- What a processor is called with ----

  /** Ticks one after another, as one longer run of rule checks. */
  lemma {:induction false} StepRulesJoin(processors: map<string, seq<Id>>, log: Log, r1: seq<Rule>, t1: seq<Tick>,
                                         r2: seq<Rule>, t2: seq<Tick>)
    requires |r1| == |t1| && |r2| == |t2|
    ensures StepRules(processors, StepRules(processors, log, r1, t1), r2, t2) ==
            StepRules(processors, log, r1 + r2, t1 + t2)
    decreases |r2|
  {
    if r2 == [] {
      assert r1 + r2 == r1 && t1 + t2 == t1;
    } else {
      var n := |r2| - 1;
      var r, t := r1 + r2, t1 + t2;
      assert r[..|r1| + n] == r1 + r2[..n] && t[..|r1| + n] == t1 + t2[..n];
      assert r[|r1| + n] == r2[n] && t[|r1| + n] == t2[n];
      assert StepRules(processors, log, r, t) ==
             StepRule(processors, StepRules(processors, log, r[..|r1| + n], t[..|r1| + n]), r2[n], t2[n]);
      StepRulesJoin(processors, log, r1, t1, r2[..n], t2[..n]);
    }
  }

  /** The calls made to a processor for a rule, in order. */
  function CallsTo(calls: seq<Call>, p: Id, rule: Id): (r: seq<Call>)
    decreases |calls|
  {
    if calls == [] then []
    else
      var c := calls[|calls| - 1];
      CallsTo(calls[..|calls| - 1], p, rule) + if c.processor == p && c.rule == rule then [c] else []
  }

  lemma {:induction false} CallsToJoin(a: seq<Call>, b: seq<Call>, p: Id, rule: Id)
    ensures CallsTo(a + b, p, rule) == CallsTo(a, p, rule) + CallsTo(b, p, rule)
    decreases |b|
  {
    if b == [] {
      assert a + b == a;
    } else {
      var n := |b| - 1;
      assert (a + b)[..|a| + n] == a + b[..n];
      CallsToJoin(a, b[..n], p, rule);
    }
  }

  function Count(ps: seq<Id>, p: Id): (n: nat)
    decreases |ps|
  {
    if ps == [] then 0 else Count(ps[..|ps| - 1], p) + if ps[|ps| - 1] == p then 1 else 0
  }

  /** An event calls a processor as often as it is registered, and the processors of other rules not at all. */
  lemma {:induction false} InvocationsTo(ps: seq<Id>, r: Id, occurred: int, last: Option<int>, p: Id, rule: Id)
    ensures var calls := CallsTo(Invocations(ps, r, occurred, last), p, rule);
            && |calls| == (if r == rule then Count(ps, p) else 0)
            && forall i :: 0 <= i < |calls| ==> calls[i] == Call(p, rule, occurred, last)
    decreases |ps|
  {
    if ps != [] {
      var n := |ps| - 1;
      var before := Invocations(ps[..n], r, occurred, last);
      assert (before + [Call(ps[n], r, occurred, last)])[..|before|] == before;
      InvocationsTo(ps[..n], r, occurred, last, p, rule);
    }
  }

  /** The calls carry the events in order, each with the event directly before it. */
  ghost predicate Follows(calls: seq<Call>, events: seq<int>) {
    && |calls| == |events|
    && forall i :: 0 <= i < |calls| ==>
         calls[i].occurred == events[i] && (i == 0 ==> calls[i].last.None?) && (i > 0 ==> calls[i].last == Some(events[i - 1]))
  }

  ghost predicate Sorted(s: seq<int>) {
    forall i, j :: 0 <= i <= j < |s| ==> s[i] <= s[j]
  }

  lemma LatestLast(events: seq<int>)
    requires Sorted(events) && events != []
    ensures Latest(events) == Some(events[|events| - 1])
  {
    var e := Latest(events).value;
    var i :| 0 <= i < |events| && events[i] == e;
    assert events[|events| - 1] in events;
  }

  lemma AppendSorted(s: seq<int>, x: int)
    requires Sorted(s) && forall e :: e in s ==> e <= x
    ensures Sorted(s + [x])
  {
    forall i, j | 0 <= i <= j < |s + [x]| ensures (s + [x])[i] <= (s + [x])[j] {
      assert i < |s| ==> s[i] in s;
    }
  }

  lemma FollowsNext(calls: seq<Call>, events: seq<int>, c: Call)
    requires Follows(calls, events) && Sorted(events) && c.last == Latest(events)
    ensures Follows(calls + [c], events + [c.occurred])
  {
    if events != [] { LatestLast(events); }
  }

  /** Whenever the rule is checked, the processor is registered under its name just once. */
  ghost predicate RegisteredOnce(processors: map<string, seq<Id>>, rules: seq<Rule>, p: Id, id: Id) {
    forall i :: 0 <= i < |rules| && rules[i].id == id && rules[i].name in processors ==>
      Count(processors[rules[i].name], p) == 1
  }

  /** A rule's events are in order, none after `now`, and the processor was called with each in turn. */
  ghost predicate InStep(log: Log, p: Id, id: Id, now: int) {
    var events := EventsOf(log.events, id);
    Sorted(events) && (forall e :: e in events ==> e <= now) && Follows(CallsTo(log.calls, p, id), events)
  }

  lemma FireInStep(log: Log, ps: seq<Id>, p: Id, id: Id, tick: Tick)
    requires InStep(log, p, id, tick.now) && tick.now <= tick.stamp && Count(ps, p) == 1
    ensures var past := EventsOf(log.events, id);
            InStep(Log(log.events[id := past + [tick.stamp]],
                       log.calls + Invocations(ps, id, tick.stamp, Latest(past))), p, id, tick.stamp)
  {
    var past := EventsOf(log.events, id);
    var c := Call(p, id, tick.stamp, Latest(past));
    var made := Invocations(ps, id, tick.stamp, Latest(past));
    AppendSorted(past, tick.stamp);
    CallsToJoin(log.calls, made, p, id);
    InvocationsTo(ps, id, tick.stamp, Latest(past), p, id);
    assert CallsTo(made, p, id) == [c];
    FollowsNext(CallsTo(log.calls, p, id), past, c);
  }

  lemma OtherInStep(log: Log, ps: seq<Id>, r: Id, stamp: int, last: Option<int>, past: seq<int>, p: Id, id: Id, now: int)
    requires InStep(log, p, id, now) && r != id
    ensures InStep(Log(log.events[r := past], log.calls + Invocations(ps, r, stamp, last)), p, id, now)
  {
    CallsToJoin(log.calls, Invocations(ps, r, stamp, last), p, id);
    InvocationsTo(ps, r, stamp, last, p, id);
    assert CallsTo(log.calls + Invocations(ps, r, stamp, last), p, id) == CallsTo(log.calls, p, id);
  }

  lemma StepInStep(processors: map<string, seq<Id>>, log: Log, rule: Rule, tick: Tick, p: Id, id: Id)
    requires InStep(log, p, id, tick.now) && tick.now <= tick.stamp
    requires rule.id == id && rule.name in processors ==> Count(processors[rule.name], p) == 1
    ensures InStep(StepRule(processors, log, rule, tick), p, id, tick.stamp)
  {
    var past := EventsOf(log.events, rule.id);
    if Due(processors, past, rule, tick) {
      if rule.id == id {
        FireInStep(log, processors[rule.name], p, id, tick);
      } else {
        OtherInStep(log, processors[rule.name], rule.id, tick.stamp, Latest(past), past + [tick.stamp], p, id, tick.now);
      }
    }
  }

  /** Over any run of ticks over any rules, a processor is called with a rule's events in order, each with the one before it. */
  lemma {:induction false} CallsFollowEvents(processors: map<string, seq<Id>>, rules: seq<Rule>, ticks: seq<Tick>, p: Id, id: Id, now: int)
    requires |rules| == |ticks| && Ordered([], ticks) && RegisteredOnce(processors, rules, p, id)
    requires forall i :: 0 <= i < |ticks| ==> ticks[i].stamp <= now
    ensures InStep(StepRules(processors, Log(map[], []), rules, ticks), p, id, now)
    decreases |rules|
  {
    if rules != [] {
      var n := |rules| - 1;
      CallsFollowEvents(processors, rules[..n], ticks[..n], p, id, ticks[n].now);
      StepInStep(processors, StepRules(processors, Log(map[], []), rules[..n], ticks[..n]), rules[n], ticks[n], p, id);
    }
  }

  class ClockProcess {
    var processors: map<string, seq<Id>>
    var events: map<Id, seq<int>>
    var calls: seq<Call>

    constructor ()
      ensures processors == map[] && events == map[] && calls == []
    {
      processors, events, calls := map[], map[], [];
    }

    /** `register_processor` */
    method RegisterProcessor(name: string, processor: Id)
      modifies this`processors
      ensures processors.Keys == old(processors).Keys + {name}
      ensures processors[name] == (if name in old(processors) then old(processors)[name] else []) + [processor]
      ensures forall n :: n in old(processors) && n != name ==> processors[n] == old(processors)[n]
    {
      if name !in processors {
        processors := processors[name := []];
      }
      processors := processors[name := processors[name] + [processor]];
    }

    /** `_trigger_event` */
    method TriggerEvent(rule: Rule, stamp: int, last: Option<int>)
      requires rule.name in processors
      modifies this`events, this`calls
      ensures events == old(events)[rule.id := EventsOf(old(events), rule.id) + [stamp]]
      ensures calls == old(calls) + Invocations(processors[rule.name], rule.id, stamp, last)
    {
      events := events[rule.id := EventsOf(events, rule.id) + [stamp]];
      var ps := processors[rule.name];
      for k := 0 to |ps|
        invariant events == old(events)[rule.id := EventsOf(old(events), rule.id) + [stamp]]
        invariant calls == old(calls) + Invocations(ps[..k], rule.id, stamp, last)
      {
        assert ps[..k + 1][..k] == ps[..k];
        calls := calls + [Call(ps[k], rule.id, stamp, last)];
      }
      assert ps[..|ps|] == ps;
    }

    /** `_check_rule` */
    method CheckRule(rule: Rule, tick: Tick) returns (r: Result<bool, ClockError>)
      modifies this`events, this`calls
      ensures r.Ok? <==> Sound(processors, rule)
      ensures r.Err? ==> r.error == Validated(processors, rule).error
      ensures r.Ok? ==> (r.value <==> CheckSchedule(tick.now, rule.duration.value, Latest(EventsOf(old(events), rule.id))))
      ensures Log(events, calls) == StepRule(processors, Log(old(events), old(calls)), rule, tick)
    {
      ValidatedExactly(processors, rule);
      var checked := Validated(processors, rule);
      if checked.Err? {
        return Err(checked.error);
      }
      var last := Latest(EventsOf(events, rule.id));
      var due := CheckSchedule(tick.now, checked.value, last);
      if due {
        TriggerEvent(rule, tick.stamp, last);
      }
      return Ok(due);
    }

    /** `perform_tick`; `ticks` holds the clock readings made for each rule. */
    method PerformTick(rules: seq<Rule>, ticks: seq<Tick>)
      requires |rules| == |ticks|
      modifies this`events, this`calls
      ensures Log(events, calls) == StepRules(processors, Log(old(events), old(calls)), rules, ticks)
    {
      ghost var start := Log(events, calls);
      assert rules[..0] == [] && ticks[..0] == [];
      for n := 0 to |rules|
        invariant Log(events, calls) == StepRules(processors, start, rules[..n], ticks[..n])
      {
        assert rules[..n + 1][..n] == rules[..n] && ticks[..n + 1][..n] == ticks[..n];
        var _ := CheckRule(rules[n], ticks[n]);
      }
      assert rules[..|rules|] == rules && ticks[..|rules|] == ticks;
    }
  }
}
