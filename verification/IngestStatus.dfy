/** Hourly ingest counts per strike process (scale/ingest/models.py). Times are microseconds of UTC. */
module IngestStatus {
  import opened Common

  const HOUR := 3_600_000_000
  const DAY := 86_400_000_000

  lemma Units()
    ensures HOUR == 60 * 60 * 1_000_000 && DAY == 24 * HOUR
  {
  }

  function HourOf(t: int): (h: int) { t / HOUR }

  function DayOf(t: int): (d: int) { t / DAY }

  /** `IngestCounts`: the files and bytes of one hour, numbered from the epoch. */
  datatype Counts = Counts(hour: int, files: nat, size: nat)

  type Slots = map<int, Counts>

  /** An `IngestStatus` with its time slots. */
  datatype Group = Group(mostRecent: Option<int>, files: nat, size: nat, slots: Slots)

  datatype Ingest = Ingest(strike: Option<Id>, size: nat, ingestEnded: Option<int>, dataStarted: Option<int>, dataEnded: Option<int>)

  function DatedOf(i: Ingest, useIngestTime: bool): (t: Option<int>) {
    if useIngestTime then i.ingestEnded else i.dataStarted
  }

  /** The time range filters of `get_status` with both ends given; a null time passes no comparison. */
  predicate InRange(i: Ingest, started: int, ended: int, useIngestTime: bool) {
    if useIngestTime then i.ingestEnded.Some? && started <= i.ingestEnded.value <= ended
    else i.dataEnded.Some? && started <= i.dataEnded.value && i.dataStarted.Some? && i.dataStarted.value <= ended
  }

  function SlotAt(slots: Slots, hour: int): (c: Counts) {
    if hour in slots then slots[hour] else Counts(hour, 0, 0)
  }

  /** `_update_status` */
  function Updated(g: Group, size: nat, dated: int): (r: Group) {
    var c := SlotAt(g.slots, HourOf(dated));
    Group(if g.mostRecent.None? || dated > g.mostRecent.value then Some(dated) else g.mostRecent,
          g.files + 1, g.size + size,
          g.slots[HourOf(dated) := c.(files := c.files + 1, size := c.size + size)])
  }

  const EMPTY := Group(None, 0, 0, map[])

  /** One ingest counted for a strike. */
  datatype Record = Record(size: nat, dated: int)

  /** The ingests that count for a strike, in order. */
  function RecordsOf(ingests: seq<Ingest>, strike: Id, useIngestTime: bool): (rs: seq<Record>)
    decreases |ingests|
  {
    if ingests == [] then []
    else
      var i := ingests[|ingests| - 1];
      var dated := DatedOf(i, useIngestTime);
      RecordsOf(ingests[..|ingests| - 1], strike, useIngestTime) +
      if i.strike == Some(strike) && dated.Some? then [Record(i.size, dated.value)] else []
  }

  function GroupOf(rs: seq<Record>): (g: Group)
    decreases |rs|
  {
    if rs == [] then EMPTY
    else Updated(GroupOf(rs[..|rs| - 1]), rs[|rs| - 1].size, rs[|rs| - 1].dated)
  }

  // ---- The simple specification ----

  function SizeOf(rs: seq<Record>): (n: nat)
    decreases |rs|
  {
    if rs == [] then 0 else SizeOf(rs[..|rs| - 1]) + rs[|rs| - 1].size
  }

  predicate Within(r: Record, first: int, n: nat) { first <= HourOf(r.dated) < first + n }

  /** The records of `n` hours from `first`. */
  function Inside(rs: seq<Record>, first: int, n: nat): (r: seq<Record>)
    ensures |r| <= |rs|
    decreases |rs|
  {
    if rs == [] then []
    else Inside(rs[..|rs| - 1], first, n) + if Within(rs[|rs| - 1], first, n) then [rs[|rs| - 1]] else []
  }

  function FilesIn(cs: seq<Counts>): (n: nat)
    decreases |cs|
  {
    if cs == [] then 0 else FilesIn(cs[..|cs| - 1]) + cs[|cs| - 1].files
  }

  function SizeIn(cs: seq<Counts>): (n: nat)
    decreases |cs|
  {
    if cs == [] then 0 else SizeIn(cs[..|cs| - 1]) + cs[|cs| - 1].size
  }

  /** One entry per hour, with zeros where nothing was counted. */
  function Filled(slots: Slots, first: int, n: nat): (cs: seq<Counts>)
    ensures |cs| == n
    decreases n
  {
    if n == 0 then [] else Filled(slots, first, n - 1) + [SlotAt(slots, first + n - 1)]
  }

  function HoursFilled(started: int, ended: int): (n: nat) {
    if DayOf(ended) < DayOf(started) then 0 else 24 * (DayOf(ended) - DayOf(started) + 1)
  }

  /** The values `_fill_status` gives: every hour of every day from that of `started` to that of `ended`. */
  function StatusValues(slots: Slots, started: int, ended: int): (cs: seq<Counts>) {
    Filled(slots, 24 * DayOf(started), HoursFilled(started, ended))
  }

  ghost predicate HoursMatch(slots: Slots) {
    forall h :: h in slots ==> slots[h].hour == h
  }

  // ---- Totals and slots agree ----

  lemma {:induction false} FilledHours(slots: Slots, first: int, n: nat)
    requires HoursMatch(slots)
    ensures forall i :: 0 <= i < n ==> Filled(slots, first, n)[i].hour == first + i
    decreases n
  {
    if n > 0 { FilledHours(slots, first, n - 1); }
  }

  lemma FilledSum(slots: Slots, first: int, n: nat)
    requires n > 0
    ensures var a, b, c := Filled(slots, first, n - 1), Filled(slots, first, n), SlotAt(slots, first + n - 1);
            FilesIn(b) == FilesIn(a) + c.files && SizeIn(b) == SizeIn(a) + c.size
  {
    assert Filled(slots, first, n)[..n - 1] == Filled(slots, first, n - 1);
  }

  lemma {:induction false} FilledUpdated(g: Group, size: nat, dated: int, first: int, n: nat)
    ensures var a, b := Filled(g.slots, first, n), Filled(Updated(g, size, dated).slots, first, n);
            var hit := first <= HourOf(dated) < first + n;
            && FilesIn(b) == FilesIn(a) + (if hit then 1 else 0)
            && SizeIn(b) == SizeIn(a) + (if hit then size else 0)
    decreases n
  {
    if n > 0 {
      FilledUpdated(g, size, dated, first, n - 1);
      FilledSum(g.slots, first, n);
      FilledSum(Updated(g, size, dated).slots, first, n);
    }
  }

  lemma {:induction false} FilledEmpty(first: int, n: nat)
    ensures FilesIn(Filled(map[], first, n)) == 0 && SizeIn(Filled(map[], first, n)) == 0
    decreases n
  {
    if n > 0 {
      FilledEmpty(first, n - 1);
      assert Filled(map[], first, n)[..n - 1] == Filled(map[], first, n - 1);
    }
  }

  lemma InsideLast(rs: seq<Record>, first: int, n: nat)
    requires rs != []
    ensures var k := |rs| - 1; var hit := Within(rs[k], first, n);
            && |Inside(rs, first, n)| == |Inside(rs[..k], first, n)| + (if hit then 1 else 0)
            && SizeOf(Inside(rs, first, n)) == SizeOf(Inside(rs[..k], first, n)) + (if hit then rs[k].size else 0)
  {
    var k := |rs| - 1;
    var before := Inside(rs[..k], first, n);
    if Within(rs[k], first, n) {
      assert (before + [rs[k]])[..|before|] == before;
    } else {
      assert before + [] == before;
    }
  }

  /** Over any stretch of hours, the filled counts are those of the records that fall in it. */
  lemma {:induction false} FilledCounts(rs: seq<Record>, first: int, n: nat)
    ensures FilesIn(Filled(GroupOf(rs).slots, first, n)) == |Inside(rs, first, n)|
    ensures SizeIn(Filled(GroupOf(rs).slots, first, n)) == SizeOf(Inside(rs, first, n))
    decreases |rs|
  {
    if rs == [] {
      FilledEmpty(first, n);
    } else {
      var k := |rs| - 1;
      FilledCounts(rs[..k], first, n);
      FilledUpdated(GroupOf(rs[..k]), rs[k].size, rs[k].dated, first, n);
      InsideLast(rs, first, n);
    }
  }

  lemma {:induction false} Totals(rs: seq<Record>)
    ensures var g := GroupOf(rs);
            && g.files == |rs| && g.size == SizeOf(rs) && HoursMatch(g.slots)
            && (g.mostRecent.None? <==> rs == [])
            && (forall i :: 0 <= i < |rs| ==> g.mostRecent.Some? && rs[i].dated <= g.mostRecent.value)
            && (rs != [] ==> exists i :: 0 <= i < |rs| && rs[i].dated == g.mostRecent.value)
    decreases |rs|
  {
    if rs != [] {
      var k := |rs| - 1;
      Totals(rs[..k]);
      if k > 0 {
        var i :| 0 <= i < k && rs[..k][i].dated == GroupOf(rs[..k]).mostRecent.value;
        assert rs[i].dated == GroupOf(rs[..k]).mostRecent.value;
      }
      assert rs[k].dated == GroupOf(rs).mostRecent.value || k > 0;
    }
  }

  lemma {:induction false} InsideAll(rs: seq<Record>, first: int, n: nat)
    ensures |Inside(rs, first, n)| == |rs| <==> forall i :: 0 <= i < |rs| ==> Within(rs[i], first, n)
    ensures |Inside(rs, first, n)| == |rs| ==> Inside(rs, first, n) == rs
    decreases |rs|
  {
    if rs != [] {
      var k := |rs| - 1;
      InsideAll(rs[..k], first, n);
      assert rs == rs[..k] + [rs[k]];
      assert forall i :: 0 <= i < k ==> rs[..k][i] == rs[i];
      assert (forall i :: 0 <= i < |rs| ==> Within(rs[i], first, n)) <==>
             Within(rs[k], first, n) && forall i :: 0 <= i < k ==> Within(rs[..k][i], first, n);
    }
  }

  lemma DayHours(t: int)
    ensures 24 * DayOf(t) <= HourOf(t) < 24 * (DayOf(t) + 1)
  {
  }

  /** The filled list has 24 entries a day in strictly ascending hour order. */
  lemma FilledShape(rs: seq<Record>, started: int, ended: int)
    ensures var cs := StatusValues(GroupOf(rs).slots, started, ended);
            && |cs| == HoursFilled(started, ended) && |cs| % 24 == 0
            && (forall i :: 0 <= i < |cs| ==> cs[i].hour == 24 * DayOf(started) + i)
            && (forall i, j :: 0 <= i < j < |cs| ==> cs[i].hour < cs[j].hour)
  {
    Totals(rs);
    FilledHours(GroupOf(rs).slots, 24 * DayOf(started), HoursFilled(started, ended));
  }

  predicate DayWithin(t: int, started: int, ended: int) { DayOf(started) <= DayOf(t) <= DayOf(ended) }

  lemma WithinDays(r: Record, started: int, ended: int)
    ensures Within(r, 24 * DayOf(started), HoursFilled(started, ended)) <==> DayWithin(r.dated, started, ended)
  {
    DayHours(r.dated);
  }

  /** The hourly counts sum to the totals exactly when every counted ingest is dated on one of the days filled. */
  lemma SumsMatch(rs: seq<Record>, started: int, ended: int)
    ensures var g := GroupOf(rs); var cs := StatusValues(g.slots, started, ended);
            && (FilesIn(cs) == g.files <==> forall i :: 0 <= i < |rs| ==> DayWithin(rs[i].dated, started, ended))
            && (FilesIn(cs) == g.files ==> SizeIn(cs) == g.size)
  {
    var first, n := 24 * DayOf(started), HoursFilled(started, ended);
    Totals(rs);
    FilledCounts(rs, first, n);
    InsideAll(rs, first, n);
    forall i | 0 <= i < |rs| ensures Within(rs[i], first, n) <==> DayWithin(rs[i].dated, started, ended) {
      WithinDays(rs[i], started, ended);
    }
  }

  lemma {:induction false} RecordsInRange(ingests: seq<Ingest>, strike: Id, started: int, ended: int)
    requires forall i :: 0 <= i < |ingests| ==> InRange(ingests[i], started, ended, true)
    ensures forall k :: 0 <= k < |RecordsOf(ingests, strike, true)| ==>
              started <= RecordsOf(ingests, strike, true)[k].dated <= ended
    decreases |ingests|
  {
    if ingests != [] { RecordsInRange(ingests[..|ingests| - 1], strike, started, ended); }
  }

  /**
   With both ends given and grouping by ingest time, for each strike the filled counts and sizes sum to
   the status totals, which count exactly the strike's ingests, and `most_recent` is their latest date.
   */
  lemma IngestTimeSums(ingests: seq<Ingest>, strike: Id, started: int, ended: int)
    requires forall i :: 0 <= i < |ingests| ==> InRange(ingests[i], started, ended, true)
    ensures var rs := RecordsOf(ingests, strike, true); var g := GroupOf(rs);
            var cs := StatusValues(g.slots, started, ended);
            && FilesIn(cs) == g.files == |rs| && SizeIn(cs) == g.size == SizeOf(rs)
            && (g.mostRecent.None? <==> rs == [])
            && (forall i :: 0 <= i < |rs| ==> g.mostRecent.Some? && rs[i].dated <= g.mostRecent.value)
            && (rs != [] ==> exists i :: 0 <= i < |rs| && rs[i].dated == g.mostRecent.value)
  {
    var rs := RecordsOf(ingests, strike, true);
    RecordsInRange(ingests, strike, started, ended);
    forall i | 0 <= i < |rs| ensures DayWithin(rs[i].dated, started, ended) {
      assert started <= rs[i].dated <= ended;
    }
    Totals(rs);
    SumsMatch(rs, started, ended);
  }

  /** Grouped by data time the sums can fall short: an ingest whose data began before the range is counted but in no filled hour. */
  lemma DataTimeCanFallShort()
    ensures var i := Ingest(Some(1), 5, None, Some(0), Some(DAY)); var g := GroupOf(RecordsOf([i], 1, false));
            && InRange(i, DAY, DAY, false)
            && g.files == 1 && FilesIn(StatusValues(g.slots, DAY, DAY)) == 0
  {
    var i := Ingest(Some(1), 5, None, Some(0), Some(DAY));
    assert [i][..0] == [];
    var rs := RecordsOf([i], 1, false);
    assert RecordsOf([i][..0], 1, false) == [];
    assert rs == [Record(5, 0)];
    assert rs[..0] == [];
    FilledCounts(rs, 24 * DayOf(DAY), HoursFilled(DAY, DAY));
    WithinDays(rs[0], DAY, DAY);
    assert Inside(rs, 24 * DayOf(DAY), HoursFilled(DAY, DAY)) == [];
  }

  // ---- The loops ----

  /** Every known strike has the group of its own ingests. */
  ghost predicate GroupsOf(groups: map<Id, Group>, strikes: set<Id>, ingests: seq<Ingest>, useIngestTime: bool) {
    && groups.Keys == strikes
    && forall s :: s in groups ==> groups[s] == GroupOf(RecordsOf(ingests, s, useIngestTime))
  }

  /** The turn of one ingest; one of an unknown strike or without a date is skipped. */
  function Counted(groups: map<Id, Group>, i: Ingest, useIngestTime: bool): (r: map<Id, Group>) {
    var dated := DatedOf(i, useIngestTime);
    if i.strike.Some? && i.strike.value in groups && dated.Some?
    then groups[i.strike.value := Updated(groups[i.strike.value], i.size, dated.value)] else groups
  }

  lemma CountedStep(groups: map<Id, Group>, strikes: set<Id>, ingests: seq<Ingest>, n: int, useIngestTime: bool)
    requires 0 <= n < |ingests| && GroupsOf(groups, strikes, ingests[..n], useIngestTime)
    ensures GroupsOf(Counted(groups, ingests[n], useIngestTime), strikes, ingests[..n + 1], useIngestTime)
  {
    var groups' := Counted(groups, ingests[n], useIngestTime);
    forall s | s in groups' ensures groups'[s] == GroupOf(RecordsOf(ingests[..n + 1], s, useIngestTime)) {
      GroupStep(ingests, n, s, useIngestTime);
    }
  }

  /** `_group_by_time`: one pass over the ingests. */
  method GroupByTime(strikes: set<Id>, ingests: seq<Ingest>, useIngestTime: bool) returns (groups: map<Id, Group>)
    ensures groups.Keys == strikes
    ensures forall s :: s in strikes ==> groups[s] == GroupOf(RecordsOf(ingests, s, useIngestTime))
  {
    groups := map s | s in strikes :: EMPTY;
    assert ingests[..0] == [];
    for n := 0 to |ingests|
      invariant GroupsOf(groups, strikes, ingests[..n], useIngestTime)
    {
      CountedStep(groups, strikes, ingests, n, useIngestTime);
      var i := ingests[n];
      var dated := DatedOf(i, useIngestTime);
      if i.strike.Some? && i.strike.value in groups && dated.Some? {
        groups := groups[i.strike.value := Updated(groups[i.strike.value], i.size, dated.value)];
      }
    }
    assert ingests[..|ingests|] == ingests;
  }

  lemma GroupStep(ingests: seq<Ingest>, n: int, s: Id, useIngestTime: bool)
    requires 0 <= n < |ingests|
    ensures var i := ingests[n]; var dated := DatedOf(i, useIngestTime);
            var before := GroupOf(RecordsOf(ingests[..n], s, useIngestTime));
            GroupOf(RecordsOf(ingests[..n + 1], s, useIngestTime)) ==
            if i.strike == Some(s) && dated.Some? then Updated(before, i.size, dated.value) else before
  {
    assert ingests[..n + 1][..n] == ingests[..n];
    var rs, rs' := RecordsOf(ingests[..n], s, useIngestTime), RecordsOf(ingests[..n + 1], s, useIngestTime);
    if ingests[n].strike == Some(s) && DatedOf(ingests[n], useIngestTime).Some? {
      assert rs'[..|rs|] == rs;
    } else {
      assert rs' == rs;
    }
  }

  /** `_fill_status` */
  method FillStatus(g: Group, started: int, ended: int) returns (values: seq<Counts>)
    ensures values == StatusValues(g.slots, started, ended)
  {
    values := [];
    var days := DayOf(ended) - DayOf(started) + 1;
    for day := 0 to if days < 0 then 0 else days
      invariant values == Filled(g.slots, 24 * DayOf(started), 24 * day)
    {
      for hour := 0 to 24
        invariant values == Filled(g.slots, 24 * DayOf(started), 24 * day + hour)
      {
        values := values + [SlotAt(g.slots, 24 * (DayOf(started) + day) + hour)];
      }
    }
  }

  /** The ingests that pass the time range filters, in order. */
  function InRangeOf(ingests: seq<Ingest>, started: int, ended: int, useIngestTime: bool): (r: seq<Ingest>)
    ensures forall i :: i in r <==> i in ingests && InRange(i, started, ended, useIngestTime)
    decreases |ingests|
  {
    if ingests == [] then []
    else
      var n := |ingests| - 1;
      assert ingests == ingests[..n] + [ingests[n]];
      InRangeOf(ingests[..n], started, ended, useIngestTime) +
      if InRange(ingests[n], started, ended, useIngestTime) then [ingests[n]] else []
  }

  /** The ingest counts for the strike: it is in range, is the strike's, and has the date grouped by. */
  predicate CountsFor(i: Ingest, strike: Id, started: int, ended: int, useIngestTime: bool) {
    && i.strike == Some(strike)
    && if useIngestTime then i.ingestEnded.Some? && started <= i.ingestEnded.value <= ended
       else i.dataStarted.Some? && i.dataStarted.value <= ended && i.dataEnded.Some? && started <= i.dataEnded.value
  }

  /** The places of the ingests that count, in order. */
  function Places(ingests: seq<Ingest>, strike: Id, started: int, ended: int, useIngestTime: bool): (ks: seq<int>)
    ensures forall j :: 0 <= j < |ks| ==>
              0 <= ks[j] < |ingests| && CountsFor(ingests[ks[j]], strike, started, ended, useIngestTime)
    ensures forall k :: 0 <= k < |ingests| && CountsFor(ingests[k], strike, started, ended, useIngestTime) ==> k in ks
    ensures forall a, b :: 0 <= a < b < |ks| ==> ks[a] < ks[b]
    decreases |ingests|
  {
    if ingests == [] then []
    else
      var n := |ingests| - 1;
      var before := Places(ingests[..n], strike, started, ended, useIngestTime);
      assert forall k :: 0 <= k < n ==> ingests[..n][k] == ingests[k];
      if CountsFor(ingests[n], strike, started, ended, useIngestTime) then before + [n] else before
  }

  lemma RecordsStep(ingests: seq<Ingest>, strike: Id, started: int, ended: int, useIngestTime: bool, n: int)
    requires 0 <= n == |ingests| - 1
    ensures var i := ingests[n];
            RecordsOf(InRangeOf(ingests, started, ended, useIngestTime), strike, useIngestTime) ==
            RecordsOf(InRangeOf(ingests[..n], started, ended, useIngestTime), strike, useIngestTime) +
            if CountsFor(i, strike, started, ended, useIngestTime)
            then [Record(i.size, if useIngestTime then i.ingestEnded.value else i.dataStarted.value)] else []
  {
    var before := InRangeOf(ingests[..n], started, ended, useIngestTime);
    if InRange(ingests[n], started, ended, useIngestTime) {
      assert (before + [ingests[n]])[..|before|] == before;
    } else {
      assert before + [] == before;
      assert InRangeOf(ingests, started, ended, useIngestTime) == before;
    }
  }

  predicate IsRecordOf(r: Record, i: Ingest, useIngestTime: bool) {
    r.size == i.size && if useIngestTime then i.ingestEnded == Some(r.dated) else i.dataStarted == Some(r.dated)
  }

  /** The records are those of the ingests at the places, one by one. */
  ghost predicate AtPlaces(rs: seq<Record>, ks: seq<int>, ingests: seq<Ingest>, useIngestTime: bool) {
    && |rs| == |ks|
    && forall j :: 0 <= j < |ks| ==> 0 <= ks[j] < |ingests| && IsRecordOf(rs[j], ingests[ks[j]], useIngestTime)
  }

  lemma AtPlacesNext(rs: seq<Record>, ks: seq<int>, ingests: seq<Ingest>, useIngestTime: bool, n: int, r: Record)
    requires 0 <= n < |ingests| && AtPlaces(rs, ks, ingests[..n], useIngestTime)
    ensures AtPlaces(rs, ks, ingests, useIngestTime)
    ensures IsRecordOf(r, ingests[n], useIngestTime) ==> AtPlaces(rs + [r], ks + [n], ingests, useIngestTime)
  {
    forall j | 0 <= j < |ks| ensures 0 <= ks[j] < |ingests| && IsRecordOf(rs[j], ingests[ks[j]], useIngestTime) {
      assert ingests[..n][ks[j]] == ingests[ks[j]];
    }
  }

  /** The records of a strike are its counting ingests, each once and in order, with their sizes and dates. */
  lemma {:induction false} RecordsExactly(ingests: seq<Ingest>, strike: Id, started: int, ended: int, useIngestTime: bool)
    ensures AtPlaces(RecordsOf(InRangeOf(ingests, started, ended, useIngestTime), strike, useIngestTime),
                     Places(ingests, strike, started, ended, useIngestTime), ingests, useIngestTime)
    decreases |ingests|
  {
    if ingests != [] {
      var n := |ingests| - 1;
      var i := ingests[n];
      var rs := RecordsOf(InRangeOf(ingests[..n], started, ended, useIngestTime), strike, useIngestTime);
      RecordsExactly(ingests[..n], strike, started, ended, useIngestTime);
      RecordsStep(ingests, strike, started, ended, useIngestTime, n);
      var dated := DatedOf(i, useIngestTime);
      AtPlacesNext(rs, Places(ingests[..n], strike, started, ended, useIngestTime), ingests, useIngestTime, n,
                   Record(i.size, if dated.Some? then dated.value else 0));
    }
  }

  /** The status of one strike: its totals and its hourly values. */
  datatype Report = Report(group: Group, values: seq<Counts>)

  /** The hourly values sum to the totals, which count exactly `rs`, and the most recent date is the latest of theirs. */
  ghost predicate SumsUp(r: Report, rs: seq<Record>) {
    && FilesIn(r.values) == r.group.files == |rs| && SizeIn(r.values) == r.group.size == SizeOf(rs)
    && (r.group.mostRecent.None? <==> rs == [])
    && (forall i :: 0 <= i < |rs| ==> r.group.mostRecent.Some? && rs[i].dated <= r.group.mostRecent.value)
    && (rs != [] ==> exists i :: 0 <= i < |rs| && rs[i].dated == r.group.mostRecent.value)
  }

  /** Every hour of every day from that of `started` to that of `ended`, in order. */
  ghost predicate Hourly(values: seq<Counts>, started: int, ended: int) {
    |values| == HoursFilled(started, ended) && forall i :: 0 <= i < |values| ==> values[i].hour == 24 * DayOf(started) + i
  }

  /** Each value counts the records of its own hour. */
  ghost predicate CountsHours(values: seq<Counts>, rs: seq<Record>) {
    forall i :: 0 <= i < |values| ==> CountsHour(values[i], rs)
  }

  predicate CountsHour(c: Counts, rs: seq<Record>) {
    c.files == |Inside(rs, c.hour, 1)| && c.size == SizeOf(Inside(rs, c.hour, 1))
  }

  /** What `get_status` promises for one strike, given the ingests in range. */
  ghost predicate Right(r: Report, rs: seq<Record>, started: int, ended: int, useIngestTime: bool) {
    && Hourly(r.values, started, ended) && CountsHours(r.values, rs)
    && r.group.files == |rs| && r.group.size == SizeOf(rs)
    && (useIngestTime ==> SumsUp(r, rs))
    && (SumsUp(r, rs) <==> forall i :: 0 <= i < |rs| ==> DayWithin(rs[i].dated, started, ended))
  }

  lemma SumsUpIff(rs: seq<Record>, started: int, ended: int)
    ensures var r := Report(GroupOf(rs), StatusValues(GroupOf(rs).slots, started, ended));
            SumsUp(r, rs) <==> forall i :: 0 <= i < |rs| ==> DayWithin(rs[i].dated, started, ended)
  {
    Totals(rs);
    SumsMatch(rs, started, ended);
  }

  lemma ReportIsRight(ingests: seq<Ingest>, strike: Id, started: int, ended: int, useIngestTime: bool)
    requires forall i :: i in ingests ==> InRange(i, started, ended, useIngestTime)
    ensures var rs := RecordsOf(ingests, strike, useIngestTime);
            Right(Report(GroupOf(rs), StatusValues(GroupOf(rs).slots, started, ended)), rs, started, ended, useIngestTime)
  {
    var rs := RecordsOf(ingests, strike, useIngestTime);
    TotalsOnly(rs);
    FilledShape(rs, started, ended);
    HoursCounted(rs, started, ended);
    SumsUpIff(rs, started, ended);
    if useIngestTime { IngestTimeSums(ingests, strike, started, ended); }
  }

  lemma {:induction false} FilledAt(slots: Slots, first: int, n: nat, i: int)
    requires 0 <= i < n
    ensures Filled(slots, first, n)[i] == SlotAt(slots, first + i)
    decreases n
  {
    if i < n - 1 { FilledAt(slots, first, n - 1, i); }
  }

  lemma SlotCounts(rs: seq<Record>, hour: int)
    ensures CountsHour(SlotAt(GroupOf(rs).slots, hour), rs)
  {
    Totals(rs);
    FilledCounts(rs, hour, 1);
    FilledSum(GroupOf(rs).slots, hour, 1);
  }

  lemma HoursCounted(rs: seq<Record>, started: int, ended: int)
    ensures CountsHours(StatusValues(GroupOf(rs).slots, started, ended), rs)
  {
    var first, n := 24 * DayOf(started), HoursFilled(started, ended);
    forall i | 0 <= i < n ensures CountsHour(Filled(GroupOf(rs).slots, first, n)[i], rs) {
      FilledAt(GroupOf(rs).slots, first, n, i);
      SlotCounts(rs, first + i);
    }
  }

  lemma TotalsOnly(rs: seq<Record>)
    ensures GroupOf(rs).files == |rs| && GroupOf(rs).size == SizeOf(rs)
  {
    Totals(rs);
  }

  method FilterByTime(ingests: seq<Ingest>, started: int, ended: int, useIngestTime: bool) returns (r: seq<Ingest>)
    ensures r == InRangeOf(ingests, started, ended, useIngestTime)
    ensures useIngestTime ==> forall i :: i in r <==>
              i in ingests && i.ingestEnded.Some? && started <= i.ingestEnded.value && i.ingestEnded.value <= ended
    ensures !useIngestTime ==> forall i :: i in r <==>
              i in ingests && i.dataEnded.Some? && started <= i.dataEnded.value
              && i.dataStarted.Some? && i.dataStarted.value <= ended
  {
    r := [];
    for n := 0 to |ingests|
      invariant r == InRangeOf(ingests[..n], started, ended, useIngestTime)
    {
      assert ingests[..n + 1][..n] == ingests[..n];
      if InRange(ingests[n], started, ended, useIngestTime) {
        r := r + [ingests[n]];
      }
    }
    assert ingests[..|ingests|] == ingests;
  }

  /** `get_status` with both ends given, over the INGESTED ingests: filter, group, fill. */
  method GetStatus(strikes: set<Id>, ingests: seq<Ingest>, started: int, ended: int, useIngestTime: bool)
      returns (reports: map<Id, Report>)
    ensures reports.Keys == strikes
    ensures forall s :: s in strikes ==>
              var rs := RecordsOf(InRangeOf(ingests, started, ended, useIngestTime), s, useIngestTime);
              Right(reports[s], rs, started, ended, useIngestTime)
  {
    var chosen := FilterByTime(ingests, started, ended, useIngestTime);
    var groups := GroupByTime(strikes, chosen, useIngestTime);
    reports := map[];
    var rest := strikes;
    while rest != {}
      invariant rest <= strikes && reports.Keys == strikes - rest
      invariant forall s :: s in reports ==>
                  Right(reports[s], RecordsOf(chosen, s, useIngestTime), started, ended, useIngestTime)
      decreases rest
    {
      var s := Pick(rest);
      var values := FillStatus(groups[s], started, ended);
      ReportIsRight(chosen, s, started, ended, useIngestTime);
      reports := reports[s := Report(groups[s], values)];
      rest := rest - {s};
    }
  }

  method Pick<T(==)>(s: set<T>) returns (x: T)
    requires s != {}
    ensures x in s
  {
    x :| x in s;
  }
}
