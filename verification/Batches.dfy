/**
 Concurrent `create_batch_v6` transactions over the batch table (scale/batch/models.py).

 A transaction finds the latest batch of its root in a snapshot of the committed rows, waits for
 that row's lock, and has its `is_superseded=False` filter checked again on the row as it is once
 the lock is free. Its own writes stay invisible to the others until it commits.
 */
module Batches {
  import opened Common
  import opened Chains

  datatype Batch = Batch(root: Id, prev: Option<Id>, superseded: bool)

  type Table = map<Id, Batch>

  datatype Phase =
    | Begun(request: Option<Id>)
    | Found(want: Id, row: Id)
    | Locked(row: Id)
    | Marked(row: Id)
    | Saved(over: Option<Id>, batch: Id)
    | Committed(batch: Id)
    | RolledBack

  type TxnId = int

  datatype State = State(db: Table, lock: map<Id, TxnId>, txns: map<TxnId, Phase>)

  datatype Step =
    | Begin(t: TxnId, want: Option<Id>)
    | Find(t: TxnId, row: Id)
    | Lock(t: TxnId)
    | Mark(t: TxnId)
    | Save(t: TxnId, batch: Id)
    | Commit(t: TxnId)
    | Abort(t: TxnId)

  function Holds(p: Phase): (r: Option<Id>) {
    match p
    case Locked(row) => Some(row)
    case Marked(row) => Some(row)
    case Saved(row, _) => row
    case _ => None
  }

  predicate IsLatest(db: Table, root: Id, row: Id) {
    row in db && db[row].root == root && !db[row].superseded
  }

  /** The rows a commit leaves: the locked row marked superseded, and the new batch. */
  function Publish(db: Table, row: Option<Id>, batch: Id): (db': Table)
    requires row.Some? ==> row.value in db
  {
    if row.None? then db[batch := Batch(batch, None, false)]
    else db[row.value := db[row.value].(superseded := true)][batch := Batch(db[row.value].root, row, false)]
  }

  predicate Unused(s: State, batch: Id) {
    && batch !in s.db
    && forall t :: t in s.txns && s.txns[t].Saved? ==> s.txns[t].batch != batch
  }

  function Move(s: State, t: TxnId, p: Phase): (s': State) {
    s.(txns := s.txns[t := p])
  }

  /** Drops the transaction's lock, which is how both commit and rollback end. */
  function Release(s: State, t: TxnId, p: Phase): (s': State)
    requires t in s.txns
  {
    var held := Holds(s.txns[t]);
    Move(s, t, p).(lock := if held.Some? then s.lock - {held.value} else s.lock)
  }

  /** One step of one transaction; a step that is not enabled changes nothing. */
  function Apply(s: State, step: Step): (s': State) {
    var t := step.t;
    if step.Begin? then
      if t in s.txns then s else Move(s, t, Begun(step.want))
    else if t !in s.txns then s
    else
      match step
      case Find(_, row) =>
        if s.txns[t].Begun? && s.txns[t].request.Some? && IsLatest(s.db, s.txns[t].request.value, row)
        then Move(s, t, Found(s.txns[t].request.value, row)) else s
      case Lock(_) =>
        if !s.txns[t].Found? || s.txns[t].row in s.lock then s
        else if !IsLatest(s.db, s.txns[t].want, s.txns[t].row) then Move(s, t, RolledBack)
        else Move(s, t, Locked(s.txns[t].row)).(lock := s.lock[s.txns[t].row := t])
      case Mark(_) =>
        if s.txns[t].Locked? then Move(s, t, Marked(s.txns[t].row)) else s
      case Save(_, batch) =>
        if !Unused(s, batch) then s
        else if s.txns[t].Marked? then Move(s, t, Saved(Some(s.txns[t].row), batch))
        else if s.txns[t] == Begun(None) then Move(s, t, Saved(None, batch))
        else s
      case Commit(_) =>
        if s.txns[t].Saved? && (s.txns[t].over.Some? ==> s.txns[t].over.value in s.db)
        then Release(s, t, Committed(s.txns[t].batch)).(db := Publish(s.db, s.txns[t].over, s.txns[t].batch))
        else s
      case Abort(_) =>
        if s.txns[t].Committed? then s else Release(s, t, RolledBack)
  }

  function Run(s: State, steps: seq<Step>): (s': State)
    decreases |steps|
  {
    if steps == [] then s else Run(Apply(s, steps[0]), steps[1..])
  }

  function LinksOf(db: Table): (l: Links) { map i | i in db :: db[i].prev }

  function RootsOf(db: Table): (r: map<Id, Id>) { map i | i in db :: db[i].root }

  ghost predicate HasLatest(db: Table, root: Id) {
    exists j :: IsLatest(db, root, j)
  }

  /** What the committed rows satisfy in every state. */
  ghost predicate DbInv(db: Table) {
    && WellFormed(LinksOf(db), RootsOf(db))
    && (forall i :: i in db ==> (db[i].superseded <==> HasSuccessor(LinksOf(db), i)))
    && (forall i :: i in db ==> HasLatest(db, db[i].root))
  }

  /** A lock is held by exactly the transaction that says so, and its row is still the latest. */
  ghost predicate LockInv(s: State) {
    && (forall t :: t in s.txns && Holds(s.txns[t]).Some? ==>
          var row := Holds(s.txns[t]).value;
          row in s.lock && s.lock[row] == t && row in s.db && !s.db[row].superseded)
    && (forall r :: r in s.lock ==> s.lock[r] in s.txns && Holds(s.txns[s.lock[r]]) == Some(r))
  }

  ghost predicate IdInv(s: State) {
    && (forall t :: t in s.txns && s.txns[t].Saved? ==> s.txns[t].batch !in s.db)
    && (forall t, u :: t in s.txns && u in s.txns && t != u && s.txns[t].Saved? && s.txns[u].Saved? ==>
          s.txns[t].batch != s.txns[u].batch)
  }

  ghost predicate Inv(s: State) {
    DbInv(s.db) && LockInv(s) && IdInv(s)
  }

  lemma PublishMaps(db: Table, row: Option<Id>, batch: Id)
    requires batch !in db && (row.Some? ==> row.value in db)
    ensures LinksOf(Publish(db, row, batch)) == LinksOf(db)[batch := row]
    ensures RootsOf(Publish(db, row, batch)) ==
            RootsOf(db)[batch := if row.Some? then RootsOf(db)[row.value] else batch]
  {
  }

  lemma PublishSuccessors(db: Table, row: Option<Id>, batch: Id, i: Id)
    requires forall x :: x in db ==> (db[x].superseded <==> HasSuccessor(LinksOf(db), x))
    requires batch !in db && !HasSuccessor(LinksOf(db), batch) && (row.Some? ==> row.value in db)
    requires i in Publish(db, row, batch)
    ensures Publish(db, row, batch)[i].superseded <==> HasSuccessor(LinksOf(Publish(db, row, batch)), i)
  {
    PublishMaps(db, row, batch);
    ExtendSuccessor(LinksOf(db), batch, row, i);
  }

  lemma PublishLatest(db: Table, row: Option<Id>, batch: Id, i: Id)
    requires DbInv(db) && batch !in db && (row.Some? ==> row.value in db && !db[row.value].superseded)
    requires i in Publish(db, row, batch)
    ensures HasLatest(Publish(db, row, batch), Publish(db, row, batch)[i].root)
  {
    var db' := Publish(db, row, batch);
    if db'[i].root == db'[batch].root {
      assert IsLatest(db', db'[i].root, batch);
    } else {
      var j :| IsLatest(db, db[i].root, j);
      assert IsLatest(db', db'[i].root, j);
    }
  }

  lemma PublishKeeps(db: Table, row: Option<Id>, batch: Id)
    requires DbInv(db) && batch !in db && (row.Some? ==> row.value in db && !db[row.value].superseded)
    ensures DbInv(Publish(db, row, batch))
  {
    var db' := Publish(db, row, batch);
    PublishMaps(db, row, batch);
    Extend(LinksOf(db), RootsOf(db), batch, row);
    forall i | i in db' ensures db'[i].superseded <==> HasSuccessor(LinksOf(db'), i) {
      PublishSuccessors(db, row, batch, i);
    }
    forall i | i in db' ensures HasLatest(db', db'[i].root) {
      PublishLatest(db, row, batch, i);
    }
  }

  /** A commit changes only the row it holds, so the rows that others hold stay the latest. */
  lemma CommitLocks(s: State, t: TxnId)
    requires LockInv(s) && IdInv(s)
    ensures LockInv(Apply(s, Commit(t)))
  {
  }

  lemma CommitIds(s: State, t: TxnId)
    requires LockInv(s) && IdInv(s)
    ensures IdInv(Apply(s, Commit(t)))
  {
  }

  lemma CommitKeeps(s: State, t: TxnId)
    requires Inv(s)
    ensures Inv(Apply(s, Commit(t)))
  {
    CommitLocks(s, t);
    CommitIds(s, t);
    if t in s.txns && s.txns[t].Saved? {
      PublishKeeps(s.db, s.txns[t].over, s.txns[t].batch);
      assert Apply(s, Commit(t)).db == Publish(s.db, s.txns[t].over, s.txns[t].batch);
    }
  }

  lemma LockLocks(s: State, t: TxnId)
    requires LockInv(s)
    ensures LockInv(Apply(s, Lock(t)))
  {
  }

  lemma LockIds(s: State, t: TxnId)
    requires IdInv(s)
    ensures IdInv(Apply(s, Lock(t)))
  {
  }

  lemma LockKeeps(s: State, t: TxnId)
    requires Inv(s)
    ensures Inv(Apply(s, Lock(t)))
  {
    LockLocks(s, t);
    LockIds(s, t);
  }

  lemma AbortKeeps(s: State, t: TxnId)
    requires Inv(s)
    ensures Inv(Apply(s, Abort(t)))
  {
  }

  lemma SaveLocks(s: State, t: TxnId, batch: Id)
    requires LockInv(s)
    ensures LockInv(Apply(s, Save(t, batch)))
  {
  }

  lemma SaveIds(s: State, t: TxnId, batch: Id)
    requires IdInv(s)
    ensures IdInv(Apply(s, Save(t, batch)))
  {
  }

  lemma SaveKeeps(s: State, t: TxnId, batch: Id)
    requires Inv(s)
    ensures Inv(Apply(s, Save(t, batch)))
  {
    SaveLocks(s, t, batch);
    SaveIds(s, t, batch);
  }

  lemma StepKeeps(s: State, step: Step)
    requires Inv(s)
    ensures Inv(Apply(s, step))
  {
    match step
    case Commit(t) => CommitKeeps(s, t);
    case Lock(t) => LockKeeps(s, t);
    case Abort(t) => AbortKeeps(s, t);
    case Save(t, batch) => SaveKeeps(s, t, batch);
    case _ =>
  }

  lemma {:induction false} RunKeeps(s: State, steps: seq<Step>)
    requires Inv(s)
    ensures Inv(Run(s, steps))
    decreases |steps|
  {
    if steps != [] {
      StepKeeps(s, steps[0]);
      RunKeeps(Apply(s, steps[0]), steps[1..]);
    }
  }

  const EMPTY := State(map[], map[], map[])

  /**
   In every interleaving, the committed batches of one root form one line: its root is reached from
   each of them, of any two one leads back to the other, and exactly one is not superseded.
   */
  lemma SingleLine(steps: seq<Step>, i: Id, j: Id)
    requires i in Run(EMPTY, steps).db && j in Run(EMPTY, steps).db
    requires Run(EMPTY, steps).db[i].root == Run(EMPTY, steps).db[j].root
    ensures var db := Run(EMPTY, steps).db; var l := LinksOf(db); var root := db[i].root;
            && root in db && db[root].prev == None && Descends(l, i, root)
            && (Descends(l, i, j) || Descends(l, j, i))
            && HasLatest(db, root)
            && (!db[i].superseded && !db[j].superseded ==> i == j)
  {
    RunKeeps(EMPTY, steps);
    var db := Run(EMPTY, steps).db;
    Linear(LinksOf(db), RootsOf(db), i, j);
    if !db[i].superseded && !db[j].superseded {
      TailUnique(LinksOf(db), RootsOf(db), i, j);
    }
  }

  /** In every interleaving, a superseded batch has exactly one successor and any other batch has none. */
  lemma OneSuccessor(steps: seq<Step>, i: Id, j: Id, k: Id)
    requires i in Run(EMPTY, steps).db
    ensures var db := Run(EMPTY, steps).db;
            db[i].superseded <==> HasSuccessor(LinksOf(db), i)
    ensures var db := Run(EMPTY, steps).db;
            j in db && k in db && db[j].prev == Some(i) && db[k].prev == Some(i) ==> j == k
  {
    RunKeeps(EMPTY, steps);
    var l := LinksOf(Run(EMPTY, steps).db);
    assert OneToOne(l);
    assert j in l && k in l && l[j] == Some(i) && l[k] == Some(i) ==> j == k;
  }

  /** A transaction that waits on a row has seen that row in its root's line. */
  ghost predicate FoundInv(s: State) {
    forall t :: t in s.txns && s.txns[t].Found? ==>
      s.txns[t].row in s.db && s.db[s.txns[t].row].root == s.txns[t].want
  }

  ghost predicate IsCommitted(s: State, i: Id) {
    exists t :: t in s.txns && s.txns[t] == Committed(i)
  }

  /** Committed rows and committed transactions correspond one to one. */
  ghost predicate OriginInv(s: State) {
    && (forall t :: t in s.txns && s.txns[t].Committed? ==> s.txns[t].batch in s.db)
    && (forall i :: i in s.db ==> IsCommitted(s, i))
    && (forall t, u :: t in s.txns && u in s.txns && s.txns[t].Committed? && s.txns[t] == s.txns[u] ==> t == u)
  }

  lemma StepFound(s: State, step: Step)
    requires Inv(s) && FoundInv(s)
    ensures FoundInv(Apply(s, step))
  {
  }

  lemma StepIsCommitted(s: State, step: Step, i: Id)
    requires IsCommitted(s, i)
    ensures IsCommitted(Apply(s, step), i)
  {
    var t :| t in s.txns && s.txns[t] == Committed(i);
    assert Apply(s, step).txns[t] == Committed(i);
  }

  lemma StepOrigin(s: State, step: Step)
    requires IdInv(s) && OriginInv(s)
    ensures OriginInv(Apply(s, step))
  {
    var s' := Apply(s, step);
    forall i | i in s'.db ensures IsCommitted(s', i) {
      if i in s.db {
        StepIsCommitted(s, step, i);
      } else {
        assert s'.txns[step.t] == Committed(i);
      }
    }
    forall t, u | t in s'.txns && u in s'.txns && s'.txns[t].Committed? && s'.txns[t] == s'.txns[u]
      ensures t == u
    {
      assert t != step.t ==> t in s.txns && s.txns[t] == s'.txns[t];
      assert u != step.t ==> u in s.txns && s.txns[u] == s'.txns[u];
    }
  }

  lemma {:induction false} RunOrigin(s: State, steps: seq<Step>)
    requires Inv(s) && FoundInv(s) && OriginInv(s)
    ensures FoundInv(Run(s, steps)) && OriginInv(Run(s, steps))
    decreases |steps|
  {
    if steps != [] {
      StepKeeps(s, steps[0]);
      StepFound(s, steps[0]);
      StepOrigin(s, steps[0]);
      RunOrigin(Apply(s, steps[0]), steps[1..]);
    }
  }

  /** In every interleaving each committed batch comes from exactly one committed transaction; a rolled back one leaves no row. */
  lemma RowsAreCommits(steps: seq<Step>, i: Id)
    ensures var s := Run(EMPTY, steps);
            i in s.db <==> IsCommitted(s, i)
    ensures var s := Run(EMPTY, steps);
            forall t, u :: t in s.txns && u in s.txns && s.txns[t] == Committed(i) == s.txns[u] ==> t == u
  {
    RunOrigin(EMPTY, steps);
  }

  /**
   A transaction that gets its row's lock is told that no batch with its root exists exactly when the
   row was superseded while it waited, and then its root does have a latest batch.
   */
  lemma LateLock(steps: seq<Step>, t: TxnId)
    requires var s := Run(EMPTY, steps);
             t in s.txns && s.txns[t].Found? && s.txns[t].row !in s.lock
    ensures var s := Run(EMPTY, steps);
            && s.txns[t].row in s.db
            && Apply(s, Lock(t)).txns[t] ==
               (if s.db[s.txns[t].row].superseded then RolledBack else Locked(s.txns[t].row))
            && HasLatest(s.db, s.txns[t].want)
  {
    RunKeeps(EMPTY, steps);
    RunOrigin(EMPTY, steps);
  }

  // Two requests for root 7: both find its first batch, and the first supersedes it with batch 8 while the second waits.
  const FIRST: seq<Step> := [Begin(0, None), Save(0, 7), Commit(0)]
  const BOTH: seq<Step> := [Begin(1, Some(7)), Begin(2, Some(7)), Find(1, 7), Find(2, 7)]
  const AHEAD: seq<Step> := [Lock(1), Mark(1), Save(1, 8), Commit(1)]

  const ROW := Batch(7, None, false)
  const CREATED := State(map[7 := ROW], map[], map[0 := Committed(7)])
  const WAITING := State(map[7 := ROW], map[], map[0 := Committed(7), 1 := Found(7, 7), 2 := Found(7, 7)])

  lemma RunFour(s: State, a: Step, b: Step, c: Step, d: Step)
    ensures Run(s, [a, b, c, d]) == Apply(Apply(Apply(Apply(s, a), b), c), d)
  {
    assert [a, b, c, d][1..] == [b, c, d] && [b, c, d][1..] == [c, d] && [c, d][1..] == [d] && [d][1..] == [];
    assert Run(Apply(s, a), [b, c, d]) == Run(Apply(Apply(s, a), b), [c, d]);
    assert Run(Apply(Apply(Apply(s, a), b), c), [d]) == Apply(Apply(Apply(Apply(s, a), b), c), d);
  }

  lemma RunFirstRequest()
    ensures Run(EMPTY, FIRST) == CREATED
  {
    var s1 := Apply(EMPTY, Begin(0, None));
    var s2 := Apply(s1, Save(0, 7));
    assert s2 == State(map[], map[], map[0 := Saved(None, 7)]);
    assert Apply(s2, Commit(0)) == CREATED;
    RunFirst(EMPTY, Begin(0, None), [Save(0, 7), Commit(0)]);
    RunFirst(s1, Save(0, 7), [Commit(0)]);
    RunFirst(s2, Commit(0), []);
    assert [Begin(0, None)] + [Save(0, 7), Commit(0)] == FIRST && [Save(0, 7)] + [Commit(0)] == [Save(0, 7), Commit(0)];
    assert [Commit(0)] + [] == [Commit(0)];
  }

  lemma RunBothFind()
    ensures Run(CREATED, BOTH) == WAITING
  {
    var s1 := Apply(CREATED, Begin(1, Some(7)));
    var s2 := Apply(s1, Begin(2, Some(7)));
    assert s2 == CREATED.(txns := map[0 := Committed(7), 1 := Begun(Some(7)), 2 := Begun(Some(7))]);
    var s3 := Apply(s2, Find(1, 7));
    assert s3 == CREATED.(txns := map[0 := Committed(7), 1 := Found(7, 7), 2 := Begun(Some(7))]);
    assert Apply(s3, Find(2, 7)) == WAITING;
    RunFour(CREATED, Begin(1, Some(7)), Begin(2, Some(7)), Find(1, 7), Find(2, 7));
  }

  lemma RunAhead()
    ensures var s := Run(WAITING, AHEAD);
            && s.db == map[7 := ROW.(superseded := true), 8 := Batch(7, Some(7), false)]
            && s.lock == map[] && 2 in s.txns && s.txns[2] == Found(7, 7)
  {
    SaveAhead();
    var s4 := Apply(SAVED, Commit(1));
    assert s4.db == Publish(WAITING.db, Some(7), 8) && s4.lock == map[];
    RunFour(WAITING, Lock(1), Mark(1), Save(1, 8), Commit(1));
  }

  const SAVED := State(WAITING.db, map[7 := 1], WAITING.txns[1 := Saved(Some(7), 8)])

  lemma SaveAhead()
    ensures Apply(Apply(Apply(WAITING, Lock(1)), Mark(1)), Save(1, 8)) == SAVED
  {
    var s1 := Apply(WAITING, Lock(1));
    assert s1 == State(WAITING.db, map[7 := 1], WAITING.txns[1 := Locked(7)]);
    var s2 := Apply(s1, Mark(1));
    assert s2 == State(WAITING.db, map[7 := 1], WAITING.txns[1 := Marked(7)]);
  }

  /** The case of `LateLock` that is refused does happen: a waiter is turned away although batch 8 is the latest of its root. */
  lemma LateLockHappens()
    ensures var s := Run(EMPTY, FIRST + BOTH + AHEAD);
            && 2 in s.txns && s.txns[2] == Found(7, 7) && 7 !in s.lock && 7 in s.db && s.db[7].superseded
            && Apply(s, Lock(2)).txns[2] == RolledBack
            && IsLatest(s.db, 7, 8)
  {
    RunThen(EMPTY, FIRST + BOTH, AHEAD);
    RunThen(EMPTY, FIRST, BOTH);
    RunFirstRequest();
    RunBothFind();
    RunAhead();
  }

  datatype BatchError = PreviousBatchNotFound | InvalidBatch

  /** The steps of one transaction that nothing interrupts; `row` is what its query finds, if anything. */
  function Solo(want: Option<Id>, row: Option<Id>, valid: bool, batch: Id): (steps: seq<Step>) {
    [Begin(0, want)] + Middle(want, row) + Ending(valid, batch)
  }

  function Middle(want: Option<Id>, row: Option<Id>): (steps: seq<Step>) {
    if want.None? then [] else if row.None? then [Abort(0)] else [Find(0, row.value), Lock(0), Mark(0)]
  }

  function Ending(valid: bool, batch: Id): (steps: seq<Step>) {
    if valid then [Save(0, batch), Commit(0)] else [Abort(0)]
  }

  lemma RunFirst(s: State, step: Step, rest: seq<Step>)
    ensures Run(s, [step] + rest) == Run(Apply(s, step), rest)
  {
    assert ([step] + rest)[1..] == rest;
  }

  lemma RunThen(s: State, a: seq<Step>, b: seq<Step>)
    ensures Run(s, a + b) == Run(Run(s, a), b)
    decreases |a|
  {
    if a == [] {
      assert a + b == b;
    } else {
      assert (a + b)[1..] == a[1..] + b;
      RunThen(Apply(s, a[0]), a[1..], b);
    }
  }

  function SoloResult(db: Table, want: Option<Id>, row: Option<Id>, valid: bool, batch: Id): (r: Table)
    requires row.Some? ==> row.value in db
  {
    if !valid || (want.Some? && row.None?) then db else Publish(db, row, batch)
  }

  /** Run alone, a transaction publishes its batch over the row it found, or leaves the rows as they were. */
  lemma SoloEffect(db: Table, want: Option<Id>, row: Option<Id>, valid: bool, batch: Id)
    requires batch !in db
    requires want.None? ==> row.None?
    requires row.Some? ==> want.Some? && IsLatest(db, want.value, row.value)
    ensures Run(State(db, map[], map[]), Solo(want, row, valid, batch)).db == SoloResult(db, want, row, valid, batch)
  {
    var s0 := State(db, map[], map[]);
    RunThen(s0, [Begin(0, want)] + Middle(want, row), Ending(valid, batch));
    RunThen(s0, [Begin(0, want)], Middle(want, row));
    var s1 := Apply(s0, Begin(0, want));
    var s2 := Run(s1, Middle(want, row));
    if row.Some? {
      RunFirst(s1, Find(0, row.value), [Lock(0), Mark(0)]);
      RunFirst(Apply(s1, Find(0, row.value)), Lock(0), [Mark(0)]);
    }
    if valid { RunFirst(s2, Save(0, batch), [Commit(0)]); }
  }

  class BatchManager {
    var batches: Table

    constructor ()
      ensures batches == map[] && DbInv(batches)
    {
      batches := map[];
    }

    /** `get_locked_batch_from_root` */
    method GetLockedBatchFromRoot(root: Id) returns (row: Option<Id>)
      ensures row.Some? ==> IsLatest(batches, root, row.value)
      ensures row.None? <==> !HasLatest(batches, root)
    {
      if i :| i in batches && IsLatest(batches, root, i) {
        row := Some(i);
      } else {
        row := None;
      }
    }

    /** `supersede_batch` */
    method SupersedeBatch(row: Id)
      modifies this
      ensures batches.Keys == old(batches).Keys
      ensures forall i :: i in batches ==>
                batches[i] == if i == row then old(batches)[i].(superseded := true) else old(batches)[i]
    {
      if row in batches {
        batches := batches[row := batches[row].(superseded := true)];
      }
    }

    /** `create_batch_v6`; `valid` is what validating the definition and configuration gives, `id` the new row's key. */
    method CreateBatch(want: Option<Id>, valid: bool, id: Id) returns (r: Result<Id, BatchError>, ghost row: Option<Id>)
      requires DbInv(batches) && id !in batches
      modifies this
      ensures DbInv(batches)
      ensures r == Err(PreviousBatchNotFound) <==> want.Some? && !HasLatest(old(batches), want.value)
      ensures r.Ok? <==> valid && (want.Some? ==> HasLatest(old(batches), want.value))
      ensures r.Err? ==> batches == old(batches)
      ensures r.Ok? ==> r.value == id
      ensures row.Some? ==> want.Some? && IsLatest(old(batches), want.value, row.value)
      ensures batches == SoloResult(old(batches), want, row, valid, id)
    {
      var before := batches;
      var prev, root := None, None;
      row := None;
      if want.Some? {
        prev := GetLockedBatchFromRoot(want.value);
        row := prev;
        if prev.None? {
          return Err(PreviousBatchNotFound), row;
        }
        root := Some(batches[prev.value].root);
        SupersedeBatch(prev.value);
      }
      if !valid {
        batches := before;
        return Err(InvalidBatch), row;
      }
      batches := batches[id := Batch(if root.Some? then root.value else id, prev, false)];
      assert batches == Publish(before, prev, id);
      PublishKeeps(before, prev, id);
      return Ok(id), row;
    }
  }
}
