/**
 Row locks of concurrent transactions that each lock their jobs with one `get_locked_jobs` call
 (scale/job/models.py): the rows that exist among the ids asked for, one at a time, in ascending order,
 held until the transaction ends.
 */
module JobLocks {
  import opened Common

  ghost predicate Ascending(s: seq<Id>) {
    forall i, j :: 0 <= i < j < |s| ==> s[i] < s[j]
  }

  function Insert(x: Id, s: seq<Id>): (r: seq<Id>)
    requires Ascending(s)
    ensures Ascending(r) && forall y :: y in r <==> y == x || y in s
    ensures s != [] && r != [] ==> r[0] == s[0] || r[0] == x
  {
    if s == [] || x < s[0] then [x] + s
    else if x == s[0] then s
    else
      var rest := Insert(x, s[1..]);
      assert s == [s[0]] + s[1..];
      [s[0]] + rest
  }

  /** The order in which `get_locked_jobs` locks: existing rows only, each once, ascending. */
  function LockOrder(ids: seq<Id>, table: set<Id>): (r: seq<Id>)
    ensures Ascending(r) && forall y :: y in r <==> y in ids && y in table
  {
    if ids == [] then []
    else
      assert ids == [ids[0]] + ids[1..];
      if ids[0] in table then Insert(ids[0], LockOrder(ids[1..], table)) else LockOrder(ids[1..], table)
  }

  /** A transaction: the rows it locks, in order, how many it has so far, and whether it has ended. */
  datatype Txn = Txn(rows: seq<Id>, got: nat, done: bool)

  type State = seq<Txn>

  datatype Step = Start(ids: seq<Id>, table: set<Id>) | Acquire(t: nat) | Finish(t: nat) | Abort(t: nat)

  predicate Open(s: State, t: int) { 0 <= t < |s| && !s[t].done }

  predicate Holds(s: State, t: int, row: Id) {
    Open(s, t) && s[t].got <= |s[t].rows| && row in s[t].rows[..s[t].got]
  }

  ghost predicate Free(s: State, row: Id) {
    forall u :: 0 <= u < |s| ==> !Holds(s, u, row)
  }

  ghost predicate CanAcquire(s: State, t: int) {
    Open(s, t) && s[t].got < |s[t].rows| && Free(s, s[t].rows[s[t].got])
  }

  predicate CanFinish(s: State, t: int) { Open(s, t) && s[t].got == |s[t].rows| }

  ghost function Apply(s: State, step: Step): (s': State) {
    match step
    case Start(ids, table) => s + [Txn(LockOrder(ids, table), 0, false)]
    case Acquire(t) => if CanAcquire(s, t) then s[t := s[t].(got := s[t].got + 1)] else s
    case Finish(t) => if CanFinish(s, t) then s[t := s[t].(done := true)] else s
    case Abort(t) => if Open(s, t) then s[t := s[t].(done := true)] else s
  }

  ghost function Run(s: State, steps: seq<Step>): (s': State)
    decreases |steps|
  {
    if steps == [] then s else Run(Apply(s, steps[0]), steps[1..])
  }

  /** Rows are taken in ascending order, and no row is held twice. */
  ghost predicate Inv(s: State) {
    && (forall t :: 0 <= t < |s| ==> Ascending(s[t].rows) && s[t].got <= |s[t].rows|)
    && (forall t, u, row :: Holds(s, t, row) && Holds(s, u, row) ==> t == u)
  }

  lemma AcquireKeeps(s: State, t: nat)
    requires Inv(s) && CanAcquire(s, t)
    ensures Inv(Apply(s, Acquire(t)))
  {
    var s' := Apply(s, Acquire(t));
    var next := s[t].rows[s[t].got];
    assert s[t].rows[..s[t].got + 1] == s[t].rows[..s[t].got] + [next];
    forall u, row | Holds(s', u, row) ensures Holds(s, u, row) || (u == t && row == next) {
    }
  }

  lemma StepKeeps(s: State, step: Step)
    requires Inv(s)
    ensures Inv(Apply(s, step))
  {
    var s' := Apply(s, step);
    if step.Acquire? && CanAcquire(s, step.t) {
      AcquireKeeps(s, step.t);
    } else {
      forall u, row | Holds(s', u, row) ensures Holds(s, u, row) { }
    }
  }

  /** A transaction asks for exactly the existing rows, takes one that is free, and finishes only when it holds them all. */
  lemma StepsLock(s: State, ids: seq<Id>, table: set<Id>, t: nat, row: Id)
    requires Inv(s)
    ensures var s' := Apply(s, Start(ids, table));
            && |s'| == |s| + 1 && s'[..|s|] == s && s'[|s|].got == 0 && !s'[|s|].done
            && Ascending(s'[|s|].rows) && (row in s'[|s|].rows <==> row in ids && row in table)
    ensures CanAcquire(s, t) ==> Holds(Apply(s, Acquire(t)), t, s[t].rows[s[t].got]) && Free(s, s[t].rows[s[t].got])
    ensures CanFinish(s, t) && row in s[t].rows ==> Holds(s, t, row)
  {
    if CanAcquire(s, t) {
      var n := s[t].got;
      assert s[t].rows[..n + 1][n] == s[t].rows[n];
    }
    if CanFinish(s, t) { assert s[t].rows[..|s[t].rows|] == s[t].rows; }
  }

  /** Mutual exclusion: in every run no two transactions hold one row. */
  lemma {:induction false} RunKeeps(s: State, steps: seq<Step>)
    requires Inv(s)
    ensures Inv(Run(s, steps))
    decreases |steps|
  {
    if steps != [] {
      StepKeeps(s, steps[0]);
      RunKeeps(Apply(s, steps[0]), steps[1..]);
    }
  }

  predicate WaitsFor(s: State, t: int, u: int) {
    t != u && Open(s, t) && Open(s, u) && s[t].got < |s[t].rows| && Holds(s, u, s[t].rows[s[t].got])
  }

  /** A nonempty set of transactions each waiting for a row held by another of them. */
  ghost predicate Deadlocked(s: State, d: set<int>) {
    d != {} && forall t :: t in d ==> exists u :: u in d && WaitsFor(s, t, u)
  }

  predicate Wanting(s: State, t: int) { Open(s, t) && s[t].got < |s[t].rows| }

  function WantedRow(s: State, t: int): (r: Id) {
    if Wanting(s, t) then s[t].rows[s[t].got] else 0
  }

  lemma NotHeldYet(s: State, t: int)
    requires Inv(s) && Wanting(s, t)
    ensures !Holds(s, t, WantedRow(s, t))
  {
  }

  /** Whoever holds a row another waits for is itself waiting for a higher row, if it waits at all. */
  lemma Climbs(s: State, t: int, u: int)
    requires Inv(s)
    ensures WaitsFor(s, t, u) && Wanting(s, u) ==> WantedRow(s, t) < WantedRow(s, u)
  {
  }

  lemma Member<T>(d: set<T>) returns (x: T)
    requires d != {}
    ensures x in d
  {
    x :| x in d;
  }

  lemma {:induction false} Highest(s: State, d: set<int>) returns (t: int)
    requires d != {}
    ensures t in d && forall u :: u in d ==> WantedRow(s, u) <= WantedRow(s, t)
    decreases |d|
  {
    var x := Member(d);
    var rest := d - {x};
    t := x;
    if rest != {} {
      var y := Highest(s, rest);
      if WantedRow(s, y) > WantedRow(s, x) { t := y; }
    }
    forall u | u in d ensures WantedRow(s, u) <= WantedRow(s, t) {
      assert u == x || u in rest;
    }
  }

  /** In any nonempty set of transactions, one waits for no other of them. */
  lemma Unblocked(s: State, d: set<int>) returns (t: int)
    requires Inv(s) && d != {}
    ensures t in d && forall u :: u in d ==> !WaitsFor(s, t, u)
  {
    if x :| x in d && !Wanting(s, x) {
      t := x;
    } else {
      t := Highest(s, d);
      forall u | u in d ensures !WaitsFor(s, t, u) { Climbs(s, t, u); }
    }
  }

  /** No reachable state has a deadlock. */
  lemma NoDeadlock(steps: seq<Step>, d: set<int>)
    ensures !Deadlocked(Run([], steps), d)
  {
    RunKeeps([], steps);
    if d != {} {
      var t := Unblocked(Run([], steps), d);
    }
  }

  /** While a transaction is unfinished, some unfinished transaction can lock its next row or finish. */
  lemma SomeoneCanStep(steps: seq<Step>, t: int) returns (u: nat)
    requires Open(Run([], steps), t)
    ensures CanAcquire(Run([], steps), u) || CanFinish(Run([], steps), u)
  {
    var s := Run([], steps);
    RunKeeps([], steps);
    var open := set v | 0 <= v < |s| && Open(s, v);
    assert t in open;
    var x := Unblocked(s, open);
    u := x;
    if Wanting(s, u) {
      NotHeldYet(s, u);
      forall w | 0 <= w < |s| ensures !Holds(s, w, WantedRow(s, u)) {
        assert Open(s, w) ==> w in open;
      }
    }
  }

  /** The locks and finishes still to come. */
  function Work(s: State): (n: nat)
    decreases |s|
  {
    if s == [] then 0
    else
      var t := s[|s| - 1];
      Work(s[..|s| - 1]) + (if t.done then 0 else if t.got <= |t.rows| then |t.rows| - t.got + 1 else 1)
  }

  lemma {:induction false} WorkUpdate(s: State, t: nat, x: Txn)
    requires t < |s|
    ensures Work(s[t := x]) == Work(s) - Work([s[t]]) + Work([x])
    decreases |s|
  {
    var n := |s| - 1;
    assert [s[t]][..0] == [] && [x][..0] == [];
    if t < n {
      assert s[t := x][..n] == s[..n][t := x];
      WorkUpdate(s[..n], t, x);
    } else {
      assert s[t := x][..n] == s[..n];
    }
  }

  /** Each lock or finish uses up work, so no run of them goes on for ever. */
  lemma StepWorks(s: State, t: nat)
    requires Inv(s)
    ensures CanAcquire(s, t) ==> Work(Apply(s, Acquire(t))) == Work(s) - 1
    ensures CanFinish(s, t) ==> Work(Apply(s, Finish(t))) == Work(s) - 1
  {
    if Open(s, t) {
      WorkUpdate(s, t, s[t].(got := s[t].got + 1));
      WorkUpdate(s, t, s[t].(done := true));
      assert [s[t]][..0] == [] && [s[t].(got := s[t].got + 1)][..0] == [] && [s[t].(done := true)][..0] == [];
    }
  }

  lemma {:induction false} RunThen(s: State, a: seq<Step>, b: seq<Step>)
    ensures Run(s, a + b) == Run(Run(s, a), b)
    decreases |a|
  {
    if a == [] {
      assert a + b == b;
    } else {
      assert (a + b)[1..] == a[1..] + b;
      RunThen(Apply(s, a[0]), a[1..], b);
    }
  }

  ghost predicate AllDone(s: State, n: nat) {
    n <= |s| && forall t :: 0 <= t < n ==> s[t].done
  }

  /** While a transaction is unfinished there is a step that leaves less work. */
  lemma Progress(steps: seq<Step>, t: int) returns (step: Step)
    requires Open(Run([], steps), t)
    ensures |Run([], steps + [step])| == |Run([], steps)| && Work(Run([], steps + [step])) == Work(Run([], steps)) - 1
  {
    var s := Run([], steps);
    RunKeeps([], steps);
    var u := SomeoneCanStep(steps, t);
    StepWorks(s, u);
    step := if CanAcquire(s, u) then Acquire(u) else Finish(u);
    RunThen([], steps, [step]);
    assert [step][1..] == [];
    assert Run([], steps + [step]) == Apply(s, step);
  }

  /** From every reachable state all transactions can be run to their end, in as many steps as there is work. */
  lemma {:induction false} AllCanFinish(steps: seq<Step>) returns (more: seq<Step>)
    ensures AllDone(Run([], steps + more), |Run([], steps)|)
    ensures |more| <= Work(Run([], steps))
    decreases Work(Run([], steps))
  {
    var s := Run([], steps);
    more := [];
    assert steps + more == steps;
    if t :| Open(s, t) {
      var step := Progress(steps, t);
      var rest := AllCanFinish(steps + [step]);
      more := [step] + rest;
      assert steps + more == steps + [step] + rest;
    } else {
      forall t | 0 <= t < |s| ensures s[t].done { assert !Open(s, t); }
    }
  }

  /** A transaction that has all its rows can end, and any can be rolled back; either way its rows are free for the others. */
  lemma EndFrees(s: State, t: nat, row: Id)
    requires Inv(s) && Holds(s, t, row)
    ensures s[t].got == |s[t].rows| ==> Free(Apply(s, Finish(t)), row)
    ensures Free(Apply(s, Abort(t)), row)
  {
    var done := s[t := s[t].(done := true)];
    forall u | 0 <= u < |s| ensures !Holds(done, u, row) { assert u != t ==> !Holds(s, u, row); }
  }

  /** The order matters: two transactions that lock rows 1 and 2 in opposite orders can deadlock. */
  lemma OppositeOrdersDeadlock()
    ensures Deadlocked(Run([Txn([1, 2], 0, false), Txn([2, 1], 0, false)], [Acquire(0), Acquire(1)]), {0, 1})
  {
    var s0 := [Txn([1, 2], 0, false), Txn([2, 1], 0, false)];
    var s1 := Apply(s0, Acquire(0));
    assert s1 == [Txn([1, 2], 1, false), Txn([2, 1], 0, false)];
    assert !Holds(s1, 0, 2) && !Holds(s1, 1, 2);
    var s2 := Apply(s1, Acquire(1));
    assert s2 == [Txn([1, 2], 1, false), Txn([2, 1], 1, false)];
    assert [Acquire(0), Acquire(1)][1..] == [Acquire(1)] && [Acquire(1)][1..] == [];
    assert s2[0].rows[..1] == [1] && s2[1].rows[..1] == [2];
    assert WaitsFor(s2, 0, 1) && WaitsFor(s2, 1, 0);
  }
}
