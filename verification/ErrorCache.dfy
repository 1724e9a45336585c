/** The error table and the caches in front of it (scale/error/models.py). */
module ErrorCache {
  import opened Common

  /** An error row; `detail` stands for its title, description and other fields. */
  datatype Error = Error(name: string, jobType: Option<string>, builtin: bool, detail: int)

  type Table = map<Id, Error>

  datatype State = State(
    db: Table,
    nextId: Id,
    errors: map<Id, Error>,
    builtin: map<string, Id>,
    legacy: map<string, Id>,
    byJobType: map<string, map<string, Id>>)

  datatype Failure = DoesNotExist | UnknownBuiltin | KeyError | IntegrityError

  type Found = Result<Id, Failure>

  /** `_cache_error` */
  function Cached(s: State, id: Id): (s': State)
    requires id in s.db
  {
    var e := s.db[id];
    var s1 := s.(errors := s.errors[id := e]);
    if e.builtin then s1.(builtin := s.builtin[e.name := id], legacy := s.legacy[e.name := id])
    else if e.jobType.None? then s1.(legacy := s.legacy[e.name := id])
    else
      var names := if e.jobType.value in s.byJobType then s.byJobType[e.jobType.value] else map[];
      s1.(byJobType := s.byJobType[e.jobType.value := names[e.name := id]])
  }

  predicate HasKey(db: Table, id: Id, jobType: Option<string>, name: string) {
    id in db && db[id].jobType == jobType && db[id].name == name
  }

  ghost predicate Exists(db: Table, jobType: Option<string>, name: string) {
    exists id :: HasKey(db, id, jobType, name)
  }

  ghost function RowOf(db: Table, jobType: Option<string>, name: string): (id: Id)
    requires Exists(db, jobType, name)
    ensures HasKey(db, id, jobType, name)
  {
    var id :| HasKey(db, id, jobType, name);
    id
  }

  /** The query the caches stand in for. */
  ghost function DbLookup(db: Table, jobType: Option<string>, name: string): (r: Found) {
    if Exists(db, jobType, name) then Ok(RowOf(db, jobType, name)) else Err(DoesNotExist)
  }

  predicate IsCached(s: State, jobType: Option<string>, name: string) {
    if jobType.None? then name in s.legacy
    else jobType.value in s.byJobType && name in s.byJobType[jobType.value]
  }

  /** The end of `get_job_error`: read the name's id, then the model of that id. */
  function ReadJobError(s: State, jobType: Option<string>, name: string): (r: Found) {
    if !IsCached(s, jobType, name) then Err(KeyError)
    else
      var id := if jobType.None? then s.legacy[name] else s.byJobType[jobType.value][name];
      if id in s.errors then Ok(id) else Err(KeyError)
  }

  /** The caches once `get_job_error` has fetched the row, if it had to. */
  ghost function AfterJobError(s: State, jobType: Option<string>, name: string): (s': State) {
    if IsCached(s, jobType, name) || !Exists(s.db, jobType, name) then s else Cached(s, RowOf(s.db, jobType, name))
  }

  /** `get_job_error` */
  ghost function JobError(s: State, jobType: Option<string>, name: string): (r: Found) {
    if !IsCached(s, jobType, name) && !Exists(s.db, jobType, name) then Err(DoesNotExist)
    else ReadJobError(AfterJobError(s, jobType, name), jobType, name)
  }

  /** `get_error` */
  function AfterError(s: State, id: Id): (s': State) {
    if id in s.errors || id !in s.db then s else Cached(s, id)
  }

  function ErrorById(s: State, id: Id): (r: Found) {
    if id in AfterError(s, id).errors then Ok(id) else Err(DoesNotExist)
  }

  /** `get_builtin_error` */
  function BuiltinError(s: State, name: string): (r: Found) {
    if name !in s.builtin then Err(UnknownBuiltin)
    else if s.builtin[name] in s.errors then Ok(s.builtin[name]) else Err(KeyError)
  }

  /** Rows a query for builtin errors returns, in some order. */
  ghost predicate Enumerates(db: Table, order: seq<Id>) {
    && (forall k :: 0 <= k < |order| ==> order[k] in db && db[order[k]].builtin)
    && (forall id :: id in db && db[id].builtin ==> id in order)
  }

  function Cleared(s: State): (s': State) {
    s.(errors := map[], builtin := map[], legacy := map[], byJobType := map[])
  }

  function CachedAll(s: State, order: seq<Id>): (s': State)
    requires forall k :: 0 <= k < |order| ==> order[k] in s.db
    ensures s'.db == s.db && s'.nextId == s.nextId
    decreases |order|
  {
    if order == [] then s else Cached(CachedAll(s, order[..|order| - 1]), order[|order| - 1])
  }

  /** One error model to save for a job type. */
  datatype Model = Model(name: string, detail: int)

  /** One turn of the loop in `save_job_error_models`; `existing` is the query made before the loop. */
  function Saved(s: State, jobType: string, existing: map<string, Id>, m: Model): (s': State) {
    var row := Error(m.name, Some(jobType), false, m.detail);
    if m.name in existing then s.(db := s.db[existing[m.name] := row])
    else s.(db := s.db[s.nextId := row], nextId := s.nextId + 1)
  }

  /** The insert of a name that an earlier turn has just inserted breaks the unique key. */
  ghost predicate Breaks(s: State, jobType: string, existing: map<string, Id>, m: Model) {
    m.name !in existing && Exists(s.db, Some(jobType), m.name)
  }

  ghost function SavedAll(s: State, jobType: string, existing: map<string, Id>, ms: seq<Model>): (s': State)
    decreases |ms|
  {
    if ms == [] || Breaks(s, jobType, existing, ms[0]) then s
    else SavedAll(Saved(s, jobType, existing, ms[0]), jobType, existing, ms[1..])
  }

  function NamesOf(ms: seq<Model>): (r: set<string>) { set m | m in ms :: m.name }

  /** The query made before the loop: the rows of the job type with one of the names, by name. */
  ghost function ExistingOf(db: Table, jobType: string, names: set<string>): (r: map<string, Id>)
    ensures IsExisting(db, jobType, r)
  {
    map n | n in names && Exists(db, Some(jobType), n) :: RowOf(db, Some(jobType), n)
  }

  ghost predicate IsExisting(db: Table, jobType: string, existing: map<string, Id>) {
    forall name :: name in existing ==> HasKey(db, existing[name], Some(jobType), name)
  }

  datatype Op =
    | GetBuiltin(name: string)
    | GetById(id: Id)
    | GetJobError(jobType: Option<string>, name: string)
    | SaveModels(forType: string, models: seq<Model>)
    | Reset(order: seq<Id>)

  ghost function Apply(s: State, op: Op): (s': State) {
    match op
    case GetBuiltin(_) => s
    case GetById(id) => AfterError(s, id)
    case GetJobError(jobType, name) => AfterJobError(s, jobType, name)
    case SaveModels(forType, models) => SavedAll(s, forType, ExistingOf(s.db, forType, NamesOf(models)), models)
    case Reset(order) => if Enumerates(s.db, order) then CachedAll(Cleared(s), order) else s
  }

  ghost function Run(s: State, ops: seq<Op>): (s': State)
    decreases |ops|
  {
    if ops == [] then s else Run(Apply(s, ops[0]), ops[1..])
  }

  // ---- What every run keeps ----

  /** Unique (job type, name) keys, and no job type on builtin rows. */
  ghost predicate DbInv(s: State) {
    && (forall i, j :: i in s.db && j in s.db && s.db[i].jobType == s.db[j].jobType && s.db[i].name == s.db[j].name ==> i == j)
    && (forall i :: i in s.db ==> i < s.nextId && (s.db[i].builtin ==> s.db[i].jobType.None?))
  }

  predicate SameKey(a: Error, b: Error) { a.(detail := 0) == b.(detail := 0) }

  /** Cached models are rows of the table, possibly with old details. */
  ghost predicate ModelsOk(s: State) {
    forall id :: id in s.errors ==> id in s.db && SameKey(s.errors[id], s.db[id])
  }

  predicate Leads(s: State, id: Id, jobType: Option<string>, name: string) {
    id in s.errors && s.errors[id].jobType == jobType && s.errors[id].name == name
  }

  ghost predicate BuiltinOk(s: State) {
    forall n :: n in s.builtin ==> Leads(s, s.builtin[n], None, n) && s.errors[s.builtin[n]].builtin
  }

  ghost predicate LegacyOk(s: State) {
    forall n :: n in s.legacy ==> Leads(s, s.legacy[n], None, n)
  }

  ghost predicate JobTypesOk(s: State) {
    forall t, n :: t in s.byJobType && n in s.byJobType[t] ==> Leads(s, s.byJobType[t][n], Some(t), n)
  }

  /** Every cached name leads to the cached model of that name. */
  ghost predicate CacheInv(s: State) { ModelsOk(s) && BuiltinOk(s) && LegacyOk(s) && JobTypesOk(s) }

  ghost predicate Inv(s: State) { DbInv(s) && CacheInv(s) }

  /** Caching a row again leaves its model's key as it was. */
  lemma CachedLeads(s: State, id: Id, i: Id, jobType: Option<string>, name: string)
    requires ModelsOk(s) && id in s.db && Leads(s, i, jobType, name)
    ensures Leads(Cached(s, id), i, jobType, name) && Cached(s, id).errors[i].builtin == s.errors[i].builtin
  {
  }

  lemma CachedNames(s: State, id: Id)
    requires ModelsOk(s) && BuiltinOk(s) && LegacyOk(s) && DbInv(s) && id in s.db
    ensures BuiltinOk(Cached(s, id)) && LegacyOk(Cached(s, id))
  {
    var t := Cached(s, id);
    forall n | n in t.builtin ensures Leads(t, t.builtin[n], None, n) && t.errors[t.builtin[n]].builtin {
      if n in s.builtin { CachedLeads(s, id, s.builtin[n], None, n); }
    }
    forall n | n in t.legacy ensures Leads(t, t.legacy[n], None, n) {
      if n in s.legacy { CachedLeads(s, id, s.legacy[n], None, n); }
    }
  }

  lemma CachedJobTypes(s: State, id: Id)
    requires ModelsOk(s) && JobTypesOk(s) && id in s.db
    ensures JobTypesOk(Cached(s, id))
  {
    var c := Cached(s, id);
    forall t, n | t in c.byJobType && n in c.byJobType[t] ensures Leads(c, c.byJobType[t][n], Some(t), n) {
      if t in s.byJobType && n in s.byJobType[t] { CachedLeads(s, id, s.byJobType[t][n], Some(t), n); }
    }
  }

  lemma CachedKeeps(s: State, id: Id)
    requires Inv(s) && id in s.db
    ensures Inv(Cached(s, id))
  {
    CachedNames(s, id);
    CachedJobTypes(s, id);
  }

  lemma {:induction false} CachedAllKeeps(s: State, order: seq<Id>)
    requires Inv(s) && forall k :: 0 <= k < |order| ==> order[k] in s.db
    ensures Inv(CachedAll(s, order))
    decreases |order|
  {
    if order != [] {
      CachedAllKeeps(s, order[..|order| - 1]);
      CachedKeeps(CachedAll(s, order[..|order| - 1]), order[|order| - 1]);
    }
  }

  /** Saving keeps every row's key: an update only changes details, an insert takes a new id. */
  lemma SavedKeeps(s: State, jobType: string, existing: map<string, Id>, m: Model)
    requires Inv(s) && IsExisting(s.db, jobType, existing) && !Breaks(s, jobType, existing, m)
    ensures Inv(Saved(s, jobType, existing, m)) && IsExisting(Saved(s, jobType, existing, m).db, jobType, existing)
    ensures KeysStay(s, Saved(s, jobType, existing, m))
  {
    var s' := Saved(s, jobType, existing, m);
    var row := Error(m.name, Some(jobType), false, m.detail);
    if m.name in existing {
      assert HasKey(s.db, existing[m.name], Some(jobType), m.name);
      assert SameKey(row, s.db[existing[m.name]]);
    } else {
      assert s.nextId !in s.db;
      forall i | i in s.db ensures !(s.db[i].jobType == Some(jobType) && s.db[i].name == m.name) {
        assert !HasKey(s.db, i, Some(jobType), m.name);
      }
    }
  }

  ghost predicate KeysStay(s: State, s': State) {
    forall i :: i in s.db ==> i in s'.db && SameKey(s.db[i], s'.db[i])
  }

  lemma {:induction false} SavedAllKeeps(s: State, jobType: string, existing: map<string, Id>, ms: seq<Model>)
    requires Inv(s) && IsExisting(s.db, jobType, existing)
    ensures Inv(SavedAll(s, jobType, existing, ms)) && KeysStay(s, SavedAll(s, jobType, existing, ms))
    decreases |ms|
  {
    if ms != [] && !Breaks(s, jobType, existing, ms[0]) {
      SavedKeeps(s, jobType, existing, ms[0]);
      SavedAllKeeps(Saved(s, jobType, existing, ms[0]), jobType, existing, ms[1..]);
    }
  }

  lemma StepKeeps(s: State, op: Op)
    requires Inv(s)
    ensures Inv(Apply(s, op)) && KeysStay(s, Apply(s, op))
  {
    match op
    case GetById(id) => if id in s.db { CachedKeeps(s, id); }
    case GetJobError(jobType, name) => if Exists(s.db, jobType, name) { CachedKeeps(s, RowOf(s.db, jobType, name)); }
    case SaveModels(forType, models) => SavedAllKeeps(s, forType, ExistingOf(s.db, forType, NamesOf(models)), models);
    case Reset(order) => if Enumerates(s.db, order) { CachedAllKeeps(Cleared(s), order); }
    case _ =>
  }

  lemma {:induction false} RunKeeps(s: State, ops: seq<Op>)
    requires Inv(s)
    ensures Inv(Run(s, ops)) && KeysStay(s, Run(s, ops))
    decreases |ops|
  {
    if ops != [] {
      StepKeeps(s, ops[0]);
      RunKeeps(Apply(s, ops[0]), ops[1..]);
    }
  }

  // ---- Cached lookups are the queries they replace ----

  /** In every run, looking an error up through the caches gives exactly what querying the table by that key would. */
  lemma JobErrorIsQuery(s: State, ops: seq<Op>, jobType: Option<string>, name: string)
    requires Inv(s)
    ensures JobError(Run(s, ops), jobType, name) == DbLookup(Run(s, ops).db, jobType, name)
  {
    RunKeeps(s, ops);
    JobErrorAt(Run(s, ops), jobType, name);
  }

  lemma JobErrorAt(s: State, jobType: Option<string>, name: string)
    requires Inv(s)
    ensures JobError(s, jobType, name) == DbLookup(s.db, jobType, name)
  {
    if IsCached(s, jobType, name) {
      CachedIsRow(s, jobType, name);
    } else if Exists(s.db, jobType, name) {
      var id := RowOf(s.db, jobType, name);
      CachedKeeps(s, id);
      assert IsCached(Cached(s, id), jobType, name);
      CachedIsRow(Cached(s, id), jobType, name);
    }
  }

  lemma CachedIsRow(s: State, jobType: Option<string>, name: string)
    requires Inv(s) && IsCached(s, jobType, name)
    ensures Exists(s.db, jobType, name) && ReadJobError(s, jobType, name) == Ok(RowOf(s.db, jobType, name))
  {
    var id := if jobType.None? then s.legacy[name] else s.byJobType[jobType.value][name];
    assert HasKey(s.db, id, jobType, name);
  }

  /** In every run, a lookup by id succeeds exactly when the table has that id. */
  lemma ErrorByIdIsQuery(s: State, ops: seq<Op>, id: Id)
    requires Inv(s)
    ensures ErrorById(Run(s, ops), id) == if id in Run(s, ops).db then Ok(id) else Err(DoesNotExist)
  {
    RunKeeps(s, ops);
  }

  /** Once a lookup by job type and name has succeeded it succeeds with the same id for ever, resets included. */
  lemma JobErrorStays(s: State, ops: seq<Op>, jobType: Option<string>, name: string)
    requires Inv(s) && JobError(s, jobType, name).Ok?
    ensures JobError(Run(s, ops), jobType, name) == JobError(s, jobType, name)
  {
    RunKeeps(s, ops);
    JobErrorAt(s, jobType, name);
    JobErrorAt(Run(s, ops), jobType, name);
    assert HasKey(Run(s, ops).db, RowOf(s.db, jobType, name), jobType, name);
  }

  /** A builtin lookup, which never queries, returns a builtin row of that name when it returns one. */
  lemma BuiltinIsRow(s: State, ops: seq<Op>, name: string)
    requires Inv(s)
    ensures var t := Run(s, ops);
            && (BuiltinError(t, name).Err? <==> name !in t.builtin)
            && (BuiltinError(t, name).Err? ==> BuiltinError(t, name).error == UnknownBuiltin)
            && (BuiltinError(t, name).Ok? ==>
                  var id := BuiltinError(t, name).value; id in t.db && t.db[id].builtin && t.db[id].name == name)
  {
    RunKeeps(s, ops);
  }

  lemma {:induction false} CachedAllHas(s: State, order: seq<Id>, id: Id)
    requires forall k :: 0 <= k < |order| ==> order[k] in s.db
    requires id in order && s.db[id].builtin
    ensures s.db[id].name in CachedAll(s, order).builtin
    decreases |order|
  {
    var n := |order| - 1;
    assert order == order[..n] + [order[n]];
    if id != order[n] { CachedAllHas(s, order[..n], id); }
  }

  /** A reset makes every builtin row of the table found, by exactly its id. */
  lemma ResetFindsBuiltins(s: State, order: seq<Id>, id: Id)
    requires Inv(s) && Enumerates(s.db, order) && id in s.db && s.db[id].builtin
    ensures BuiltinError(Apply(s, Reset(order)), s.db[id].name) == Ok(id)
  {
    var t := Apply(s, Reset(order));
    StepKeeps(s, Reset(order));
    CachedAllHas(Cleared(s), order, id);
    assert t.db == s.db;
    var found := t.builtin[s.db[id].name];
    assert t.db[found].jobType == s.db[id].jobType;
  }

  lemma StepBuiltin(s: State, op: Op, name: string)
    requires Inv(s) && BuiltinError(s, name).Ok?
    ensures BuiltinError(Apply(s, op), name) == BuiltinError(s, name)
  {
    var id := s.builtin[name];
    var t := Apply(s, op);
    StepKeeps(s, op);
    assert SameKey(s.db[id], t.db[id]);
    match op
    case Reset(order) =>
      if Enumerates(s.db, order) { ResetFindsBuiltins(s, order, id); }
    case SaveModels(forType, models) => SaveKeepsCaches(s, forType, models);
    case GetById(i) => BuiltinAgree(s, t, name);
    case GetJobError(_, _) => BuiltinAgree(s, t, name);
    case GetBuiltin(_) =>
  }

  lemma SaveKeepsCaches(s: State, forType: string, models: seq<Model>)
    ensures var t := Apply(s, SaveModels(forType, models)); t.errors == s.errors && t.builtin == s.builtin
  {
    SavedAllCaches(s, forType, ExistingOf(s.db, forType, NamesOf(models)), models);
  }

  lemma BuiltinAgree(s: State, t: State, name: string)
    requires Inv(s) && Inv(t) && KeysStay(s, t)
    requires name in s.builtin && name in t.builtin
    ensures s.builtin[name] == t.builtin[name]
  {
    var i, j := s.builtin[name], t.builtin[name];
    assert t.db[i].name == t.db[j].name == name && t.db[i].builtin && t.db[j].builtin;
  }

  lemma {:induction false} SavedAllCaches(s: State, jobType: string, existing: map<string, Id>, ms: seq<Model>)
    ensures var t := SavedAll(s, jobType, existing, ms);
            t.errors == s.errors && t.builtin == s.builtin
    decreases |ms|
  {
    if ms != [] && !Breaks(s, jobType, existing, ms[0]) {
      SavedAllCaches(Saved(s, jobType, existing, ms[0]), jobType, existing, ms[1..]);
    }
  }

  /** Once a builtin lookup has succeeded it succeeds with the same id for ever, resets included. */
  lemma {:induction false} BuiltinStays(s: State, ops: seq<Op>, name: string)
    requires Inv(s) && BuiltinError(s, name).Ok?
    ensures BuiltinError(Run(s, ops), name) == BuiltinError(s, name)
    decreases |ops|
  {
    if ops != [] {
      StepKeeps(s, ops[0]);
      StepBuiltin(s, ops[0], name);
      BuiltinStays(Apply(s, ops[0]), ops[1..], name);
    }
  }

  // ---- When a save goes through ----

  ghost predicate SavesAll(s: State, jobType: string, existing: map<string, Id>, ms: seq<Model>)
    decreases |ms|
  {
    ms == [] ||
    (!Breaks(s, jobType, existing, ms[0]) && SavesAll(Saved(s, jobType, existing, ms[0]), jobType, existing, ms[1..]))
  }

  lemma SavedExists(s: State, jobType: string, existing: map<string, Id>, m: Model, name: string)
    requires DbInv(s) && IsExisting(s.db, jobType, existing)
    ensures Exists(Saved(s, jobType, existing, m).db, Some(jobType), name) <==>
            Exists(s.db, Some(jobType), name) || name == m.name
  {
    var s' := Saved(s, jobType, existing, m);
    var id := if m.name in existing then existing[m.name] else s.nextId;
    assert m.name in existing ==> HasKey(s.db, id, Some(jobType), m.name);
    assert HasKey(s'.db, id, Some(jobType), m.name);
    if Exists(s.db, Some(jobType), name) {
      assert HasKey(s'.db, RowOf(s.db, Some(jobType), name), Some(jobType), name);
    }
    if Exists(s'.db, Some(jobType), name) {
      var i := RowOf(s'.db, Some(jobType), name);
      assert i != id ==> HasKey(s.db, i, Some(jobType), name);
    }
  }

  /** The model's name is updated in place, or is in neither the table nor the models before it. */
  ghost predicate Fits(s: State, jobType: string, existing: map<string, Id>, ms: seq<Model>, k: int)
    requires 0 <= k < |ms|
  {
    ms[k].name in existing ||
    (!Exists(s.db, Some(jobType), ms[k].name) && forall j :: 0 <= j < k ==> ms[j].name != ms[k].name)
  }

  lemma {:induction false} SavesAllExactly(s: State, jobType: string, existing: map<string, Id>, ms: seq<Model>)
    requires Inv(s) && IsExisting(s.db, jobType, existing)
    ensures SavesAll(s, jobType, existing, ms) <==> forall k :: 0 <= k < |ms| ==> Fits(s, jobType, existing, ms, k)
    decreases |ms|
  {
    if ms != [] {
      assert Fits(s, jobType, existing, ms, 0) <==> !Breaks(s, jobType, existing, ms[0]);
      if !Breaks(s, jobType, existing, ms[0]) {
        var s' := Saved(s, jobType, existing, ms[0]);
        SavedKeeps(s, jobType, existing, ms[0]);
        SavesAllExactly(s', jobType, existing, ms[1..]);
        forall k | 0 <= k < |ms| - 1
          ensures Fits(s', jobType, existing, ms[1..], k) <==> Fits(s, jobType, existing, ms, k + 1)
        {
          FitsShift(s, jobType, existing, ms, k);
        }
        if SavesAll(s', jobType, existing, ms[1..]) {
          forall k | 0 <= k < |ms| ensures Fits(s, jobType, existing, ms, k) {
            assert k > 0 ==> Fits(s', jobType, existing, ms[1..], k - 1);
          }
        }
      }
    }
  }

  lemma FitsShift(s: State, jobType: string, existing: map<string, Id>, ms: seq<Model>, k: int)
    requires Inv(s) && IsExisting(s.db, jobType, existing) && 0 <= k < |ms| - 1
    ensures Fits(Saved(s, jobType, existing, ms[0]), jobType, existing, ms[1..], k) <==> Fits(s, jobType, existing, ms, k + 1)
  {
    SavedExists(s, jobType, existing, ms[0], ms[k + 1].name);
    assert forall j :: 0 <= j < k ==> ms[1..][j] == ms[j + 1];
    if forall j :: 0 <= j < k + 1 ==> ms[j].name != ms[k + 1].name {
      assert ms[0].name != ms[k + 1].name;
    }
  }

  /** No name that the table lacks is given twice. */
  ghost predicate NewNamesOnce(db: Table, jobType: string, ms: seq<Model>) {
    forall j, k :: 0 <= j < k < |ms| && ms[j].name == ms[k].name ==> Exists(db, Some(jobType), ms[k].name)
  }

  /** A save reaches its end exactly when no name that the table lacks is given twice. */
  lemma SaveSucceeds(s: State, jobType: string, ms: seq<Model>)
    requires Inv(s)
    ensures SavesAll(s, jobType, ExistingOf(s.db, jobType, NamesOf(ms)), ms) <==> NewNamesOnce(s.db, jobType, ms)
  {
    var existing := ExistingOf(s.db, jobType, NamesOf(ms));
    SavesAllExactly(s, jobType, existing, ms);
    forall k | 0 <= k < |ms| ensures ms[k].name in existing <==> Exists(s.db, Some(jobType), ms[k].name) {
      assert ms[k] in ms;
      assert ms[k].name in NamesOf(ms);
    }
    if NewNamesOnce(s.db, jobType, ms) {
      forall k | 0 <= k < |ms| ensures Fits(s, jobType, existing, ms, k) { }
    } else {
      var j, k :| 0 <= j < k < |ms| && ms[j].name == ms[k].name && !Exists(s.db, Some(jobType), ms[k].name);
      assert !Fits(s, jobType, existing, ms, k);
    }
  }

  /** Two new errors of one name: the second insert breaks the unique key. */
  lemma NewNameTwiceBreaks()
    ensures var s := State(map[], 1, map[], map[], map[], map[]); var ms := [Model("bad", 1), Model("bad", 2)];
            Inv(s) && !SavesAll(s, "job", ExistingOf(s.db, "job", NamesOf(ms)), ms)
  {
    var s := State(map[], 1, map[], map[], map[], map[]);
    var ms := [Model("bad", 1), Model("bad", 2)];
    assert Inv(s);
    assert !Exists(s.db, Some("job"), ms[1].name);
    SaveSucceeds(s, "job", ms);
  }

  // ---- What a save stores ----

  ghost predicate HasRow(db: Table, e: Error) {
    exists id :: id in db && db[id] == e
  }

  predicate Given(ms: seq<Model>, jobType: string, e: Error) {
    e.jobType == Some(jobType) && exists k :: 0 <= k < |ms| && ms[k].name == e.name
  }

  /** Rows whose key was not given stay as they were, however far the save gets. */
  lemma {:induction false} OthersStay(s: State, jobType: string, existing: map<string, Id>, ms: seq<Model>, id: Id)
    requires Inv(s) && IsExisting(s.db, jobType, existing) && id in s.db && !Given(ms, jobType, s.db[id])
    ensures var t := SavedAll(s, jobType, existing, ms); id in t.db && t.db[id] == s.db[id]
    decreases |ms|
  {
    if ms != [] && !Breaks(s, jobType, existing, ms[0]) {
      SavedKeeps(s, jobType, existing, ms[0]);
      assert ms[0].name in existing ==> HasKey(s.db, existing[ms[0].name], Some(jobType), ms[0].name);
      assert forall k :: 0 <= k < |ms| - 1 ==> ms[1..][k] == ms[k + 1];
      OthersStay(Saved(s, jobType, existing, ms[0]), jobType, existing, ms[1..], id);
    }
  }

  lemma SavedStores(s: State, jobType: string, existing: map<string, Id>, m: Model) returns (id: Id)
    requires Inv(s) && IsExisting(s.db, jobType, existing)
    ensures var t := Saved(s, jobType, existing, m);
            id in t.db && t.db[id] == Error(m.name, Some(jobType), false, m.detail)
  {
    id := if m.name in existing then existing[m.name] else s.nextId;
  }

  /** When a save goes through, the row of the `k`-th model, if the last of its name, holds exactly that model. */
  lemma {:induction false} SaveStores(s: State, jobType: string, existing: map<string, Id>, ms: seq<Model>, k: int)
    requires Inv(s) && IsExisting(s.db, jobType, existing) && SavesAll(s, jobType, existing, ms)
    requires 0 <= k < |ms| && forall j :: k < j < |ms| ==> ms[j].name != ms[k].name
    ensures HasRow(SavedAll(s, jobType, existing, ms).db, Error(ms[k].name, Some(jobType), false, ms[k].detail))
    decreases |ms|
  {
    SavedKeeps(s, jobType, existing, ms[0]);
    var s' := Saved(s, jobType, existing, ms[0]);
    assert forall j :: 0 <= j < |ms| - 1 ==> ms[1..][j] == ms[j + 1];
    if k > 0 {
      SaveStores(s', jobType, existing, ms[1..], k - 1);
    } else {
      var id := SavedStores(s, jobType, existing, ms[0]);
      OthersStay(s', jobType, existing, ms[1..], id);
    }
  }

  /** The whole effect of a save, with the query it makes first. */
  lemma SaveWrites(s: State, jobType: string, ms: seq<Model>)
    requires Inv(s)
    ensures var t := Apply(s, SaveModels(jobType, ms));
            && (forall id :: id in s.db && !Given(ms, jobType, s.db[id]) ==> id in t.db && t.db[id] == s.db[id])
            && (NewNamesOnce(s.db, jobType, ms) ==>
                  forall k :: 0 <= k < |ms| && (forall j :: k < j < |ms| ==> ms[j].name != ms[k].name) ==>
                    HasRow(t.db, Error(ms[k].name, Some(jobType), false, ms[k].detail)))
  {
    var existing := ExistingOf(s.db, jobType, NamesOf(ms));
    SaveSucceeds(s, jobType, ms);
    forall id | id in s.db && !Given(ms, jobType, s.db[id])
      ensures var t := Apply(s, SaveModels(jobType, ms)); id in t.db && t.db[id] == s.db[id]
    {
      OthersStay(s, jobType, existing, ms, id);
    }
    if NewNamesOnce(s.db, jobType, ms) {
      forall k | 0 <= k < |ms| && (forall j :: k < j < |ms| ==> ms[j].name != ms[k].name)
        ensures HasRow(Apply(s, SaveModels(jobType, ms)).db, Error(ms[k].name, Some(jobType), false, ms[k].detail))
      {
        SaveStores(s, jobType, existing, ms, k);
      }
    }
  }

  /** Every row after a save was there before, or was given. */
  lemma {:induction false} NothingElseStored(s: State, jobType: string, existing: map<string, Id>, ms: seq<Model>, id: Id)
    requires Inv(s) && IsExisting(s.db, jobType, existing) && id in SavedAll(s, jobType, existing, ms).db
    ensures var e := SavedAll(s, jobType, existing, ms).db[id];
            (id in s.db && s.db[id] == e) ||
            (!e.builtin && e.jobType == Some(jobType) && Model(e.name, e.detail) in ms)
    decreases |ms|
  {
    if ms != [] && !Breaks(s, jobType, existing, ms[0]) {
      SavedKeeps(s, jobType, existing, ms[0]);
      assert ms == [ms[0]] + ms[1..];
      NothingElseStored(Saved(s, jobType, existing, ms[0]), jobType, existing, ms[1..], id);
    }
  }

  // ---- What is cached ----

  /** Caching a row caches its own key, builtin rows under no job type, and drops nothing. */
  lemma CachedExactly(s: State, id: Id, jobType: Option<string>, name: string)
    requires DbInv(s) && id in s.db
    ensures var t, e := Cached(s, id), s.db[id];
            && t.errors == s.errors[id := e] && t.db == s.db && t.nextId == s.nextId
            && t.builtin == (if e.builtin then s.builtin[e.name := id] else s.builtin)
            && (IsCached(t, jobType, name) <==> IsCached(s, jobType, name) || (jobType == e.jobType && name == e.name))
  {
  }

  lemma {:induction false} CachedAllExactly(s: State, order: seq<Id>)
    requires forall k :: 0 <= k < |order| ==> order[k] in s.db && s.db[order[k]].builtin
    ensures var t := CachedAll(s, order);
            && t.byJobType == s.byJobType
            && (forall id :: id in t.errors <==> id in s.errors || id in order)
            && (forall id :: id in order ==> t.errors[id] == s.db[id])
    decreases |order|
  {
    if order != [] {
      var n := |order| - 1;
      assert order == order[..n] + [order[n]];
      CachedAllExactly(s, order[..n]);
    }
  }

  /** A reset drops every cached model but the builtin ones, and reads those again. */
  lemma ResetReads(s: State, order: seq<Id>)
    requires Enumerates(s.db, order)
    ensures var t := Apply(s, Reset(order));
            && t.db == s.db && t.byJobType == map[]
            && (forall id :: id in t.errors <==> id in s.db && s.db[id].builtin)
            && (forall id :: id in t.errors ==> t.errors[id] == s.db[id])
  {
    CachedAllExactly(Cleared(s), order);
  }

  // ---- The module ----

  class ErrorManager {
    var db: Table
    var nextId: Id
    var errors: map<Id, Error>
    var builtin: map<string, Id>
    var legacy: map<string, Id>
    var byJobType: map<string, map<string, Id>>

    ghost function Contents(): (s: State)
      reads this
    {
      State(db, nextId, errors, builtin, legacy, byJobType)
    }

    constructor (rows: Table, nextId: Id)
      ensures Contents() == State(rows, nextId, map[], map[], map[], map[])
    {
      this.db, this.nextId := rows, nextId;
      errors, builtin, legacy, byJobType := map[], map[], map[], map[];
    }

    /** `_cache_error` */
    method CacheError(id: Id)
      requires id in db
      modifies this
      ensures Contents() == Cached(old(Contents()), id)
    {
      var e := db[id];
      errors := errors[id := e];
      if e.builtin {
        builtin := builtin[e.name := id];
        legacy := legacy[e.name := id];
      } else if e.jobType.None? {
        legacy := legacy[e.name := id];
      } else {
        if e.jobType.value !in byJobType {
          byJobType := byJobType[e.jobType.value := map[]];
        }
        byJobType := byJobType[e.jobType.value := byJobType[e.jobType.value][e.name := id]];
      }
    }

    /** `get_builtin_error` */
    method GetBuiltinError(name: string) returns (r: Found)
      ensures r == BuiltinError(Contents(), name)
    {
      if name !in builtin {
        return Err(UnknownBuiltin);
      }
      r := if builtin[name] in errors then Ok(builtin[name]) else Err(KeyError);
    }

    /** `get_error` */
    method GetError(id: Id) returns (r: Found)
      modifies this
      ensures Contents() == Apply(old(Contents()), GetById(id))
      ensures r == ErrorById(old(Contents()), id)
    {
      if id !in errors {
        if id !in db {
          return Err(DoesNotExist);
        }
        CacheError(id);
      }
      return Ok(id);
    }

    /** The query of `get_job_error` for a name that is not cached. */
    method FetchJobError(jobType: Option<string>, name: string) returns (found: bool)
      requires Inv(Contents()) && !IsCached(Contents(), jobType, name)
      modifies this
      ensures found == Exists(old(db), jobType, name)
      ensures Contents() == AfterJobError(old(Contents()), jobType, name)
    {
      if id :| id in db && HasKey(db, id, jobType, name) {
        assert id == RowOf(db, jobType, name);
        CacheError(id);
        found := true;
      } else {
        found := false;
      }
    }

    /** `get_job_error` */
    method GetJobError(jobType: Option<string>, name: string) returns (r: Found)
      requires Inv(Contents())
      modifies this
      ensures Contents() == Apply(old(Contents()), Op.GetJobError(jobType, name)) && Inv(Contents())
      ensures r == DbLookup(db, jobType, name)
    {
      JobErrorAt(Contents(), jobType, name);
      StepKeeps(Contents(), Op.GetJobError(jobType, name));
      var found := true;
      if jobType.None? {
        if name !in legacy { found := FetchJobError(None, name); }
      } else {
        if jobType.value !in byJobType || name !in byJobType[jobType.value] {
          found := FetchJobError(jobType, name);
        }
      }
      if !found { return Err(DoesNotExist); }
      return Ok(if jobType.None? then legacy[name] else byJobType[jobType.value][name]);
    }

    /** `reset_error_cache`; `order` is the order in which the query returns the builtin rows. */
    method ResetErrorCache(order: seq<Id>)
      requires Enumerates(db, order) && Inv(Contents())
      modifies this
      ensures Contents() == Apply(old(Contents()), Reset(order)) && Inv(Contents())
    {
      StepKeeps(Contents(), Reset(order));
      builtin, byJobType, legacy, errors := map[], map[], map[], map[];
      ghost var start := Contents();
      for n := 0 to |order|
        invariant Contents() == CachedAll(start, order[..n])
      {
        assert order[..n + 1][..n] == order[..n];
        CacheError(order[n]);
      }
      assert order[..|order|] == order;
    }

    /** The query of `save_job_error_models`. */
    method ExistingErrors(jobType: string, names: set<string>) returns (existing: map<string, Id>)
      requires DbInv(Contents())
      ensures existing == ExistingOf(db, jobType, names)
    {
      var rows := set id | id in db && db[id].jobType == Some(jobType) && db[id].name in names;
      existing := map id | id in rows :: db[id].name := id;
      forall n | n in ExistingOf(db, jobType, names) ensures n in existing {
        assert RowOf(db, Some(jobType), n) in rows;
      }
      forall n | n in existing ensures n in names && HasKey(db, existing[n], Some(jobType), n) {
        var id :| id in rows && db[id].name == n;
        assert existing[db[id].name] == id;
      }
      forall n | n in existing ensures n in ExistingOf(db, jobType, names) && existing[n] == RowOf(db, Some(jobType), n) {
        assert HasKey(db, existing[n], Some(jobType), n);
      }
    }

    /** The loop of `save_job_error_models`; false when the unique key stops it. */
    method SaveEach(jobType: string, existing: map<string, Id>, models: seq<Model>) returns (ok: bool)
      modifies this`db, this`nextId
      ensures Contents() == SavedAll(old(Contents()), jobType, existing, models)
      ensures ok <==> SavesAll(old(Contents()), jobType, existing, models)
    {
      for n := 0 to |models|
        invariant SavesAll(old(Contents()), jobType, existing, models) <==>
                  SavesAll(Contents(), jobType, existing, models[n..])
        invariant SavedAll(old(Contents()), jobType, existing, models) ==
                  SavedAll(Contents(), jobType, existing, models[n..])
      {
        var m := models[n];
        assert models[n..][1..] == models[n + 1..];
        var row := Error(m.name, Some(jobType), false, m.detail);
        if m.name in existing {
          db := db[existing[m.name] := row];
        } else if exists id :: id in db && HasKey(db, id, Some(jobType), m.name) {
          return false;
        } else {
          db, nextId := db[nextId := row], nextId + 1;
        }
      }
      ok := true;
    }

    /** `save_job_error_models` */
    method SaveJobErrorModels(jobType: string, models: seq<Model>) returns (ok: bool)
      requires Inv(Contents())
      modifies this`db, this`nextId
      ensures Contents() == Apply(old(Contents()), SaveModels(jobType, models)) && Inv(Contents())
      ensures KeysStay(old(Contents()), Contents())
      ensures ok <==> NewNamesOnce(old(db), jobType, models)
      ensures forall id :: id in old(db) && !Given(models, jobType, old(db)[id]) ==> id in db && db[id] == old(db)[id]
      ensures ok ==> forall k :: 0 <= k < |models| && (forall j :: k < j < |models| ==> models[j].name != models[k].name) ==>
                HasRow(db, Error(models[k].name, Some(jobType), false, models[k].detail))
    {
      StepKeeps(Contents(), SaveModels(jobType, models));
      SaveSucceeds(Contents(), jobType, models);
      SaveWrites(Contents(), jobType, models);
      var existing := ExistingErrors(jobType, NamesOf(models));
      ok := SaveEach(jobType, existing, models);
    }
  }
}
