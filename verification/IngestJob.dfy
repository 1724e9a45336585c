/**
 Ingesting one file, with crashes and retries (scale/ingest/ingest_job.py). `Disk` is what survives a
 crash: the ingest row, the source file row of that name, the files in storage, and how many times the
 trigger handler's effect was committed. An attempt may stop between any two writes. No other ingest
 of the file name runs in between.
 */
module IngestJob {
  import opened Common

  datatype Status = Waiting | Ingesting | Ingested | Duplicate | Errored

  datatype Location = Location(workspace: string, path: string)

  /** The file to ingest; `local` says whether its workspace is a file system with local paths, or an object store. */
  datatype Config = Config(origin: Location, newWorkspace: Option<string>, newPath: Option<string>, local: bool)
  {
    function Dest(): (l: Location) {
      Location(if newWorkspace.Some? then newWorkspace.value else origin.workspace,
               if newPath.Some? then newPath.value else origin.path)
    }

    /** The attempt ends by deleting the original. */
    predicate Deletes() { newWorkspace.Some? && local }

    /** Copying a local file onto itself raises, before anything is written. */
    predicate Refuses() { Deletes() && Dest() == origin }

    /** The file is moved within its workspace; a file system takes a move onto itself for none. */
    predicate Moves() { newWorkspace.None? && newPath.Some? && !(local && Dest() == origin) }

    /** An object store is to copy the object onto itself and then delete it. */
    predicate SelfMoves() { Moves() && Dest() == origin }
  }

  datatype SourceFile = SourceFile(deleted: bool, location: Location)

  datatype Disk = Disk(status: Status, linked: bool, source: Option<SourceFile>, files: set<Location>, triggers: nat)
  {
    predicate Live() { source.Some? && !source.value.deleted }

    predicate Finished() { status in {Ingested, Duplicate} }
  }

  /** Where an attempt is: what it does next. */
  datatype Pc = Idle | Starting | Linking | Transferring | Removing | Recording | Cleaning | Completing | Failing

  datatype State = State(disk: Disk, pc: Pc)

  /** How the next operation goes: it works, it raises without an effect, or the process dies before it. */
  datatype Choice = Go | Raise | Crash

  /** `_start_ingest` up to the point where the ingest row is saved. */
  function Start(cfg: Config, d: Disk): (s: State) {
    if d.linked then State(d, Linking)
    else if d.source.None? then State(d.(source := Some(SourceFile(true, cfg.origin))), Linking)
    else if d.source.value.deleted then State(d, Linking)
    else State(d.(status := Duplicate, linked := true), Idle)
  }

  /** The copy, move or registration of a file that is still marked deleted; an object store copies and then deletes. */
  function Transfer(cfg: Config, d: Disk): (s: State) {
    if d.Live() then State(d, Cleaning)
    else if cfg.newWorkspace.Some? then
      if cfg.origin in d.files && !cfg.Refuses()
      then State(d.(files := d.files + {cfg.Dest()}), Recording) else State(d, Failing)
    else if cfg.newPath.Some? then
      if cfg.origin !in d.files then State(d, Failing)
      else if cfg.local then State(d.(files := d.files - {cfg.origin} + {cfg.Dest()}), Recording)
      else State(d.(files := d.files + {cfg.Dest()}), Removing)
    else State(d.(source := Some(SourceFile(false, cfg.origin))), Cleaning)
  }

  function Advance(cfg: Config, s: State): (s': State) {
    var d := s.disk;
    match s.pc
    case Idle => if d.Finished() then s else State(d, Starting)
    case Starting => Start(cfg, d)
    case Linking => State(d.(status := Ingesting, linked := true), Transferring)
    case Transferring => Transfer(cfg, d)
    case Removing => State(d.(files := d.files - {cfg.origin}), Recording)
    case Recording => State(d.(source := Some(SourceFile(false, cfg.Dest()))), Cleaning)
    case Cleaning => State(if cfg.Deletes() then d.(files := d.files - {cfg.origin}) else d, Completing)
    case Completing => State(d.(status := Ingested, triggers := d.triggers + 1), Idle)
    case Failing => State(d.(status := Errored), Idle)
  }

  /** One operation of an attempt; from `Idle` the next attempt begins. */
  function Step(cfg: Config, s: State, c: Choice): (s': State) {
    match c
    case Go => Advance(cfg, s)
    case Raise =>
      if s.pc in {Transferring, Removing, Recording, Cleaning} then s.(pc := Failing) else s.(pc := Idle)
    case Crash => s.(pc := Idle)
  }

  function Run(cfg: Config, s: State, cs: seq<Choice>): (s': State)
    decreases |cs|
  {
    if cs == [] then s else Run(cfg, Step(cfg, s, cs[0]), cs[1..])
  }

  /** A new ingest: never started, its file in place, and any source file row of that name. */
  predicate Fresh(cfg: Config, s: State) {
    && s.pc == Idle && s.disk.status == Waiting && !s.disk.linked && s.disk.triggers == 0
    && cfg.origin in s.disk.files
  }

  /** The path of an attempt that meets no trouble. */
  function Gos(n: nat): (cs: seq<Choice>) {
    if n == 0 then [] else [Go] + Gos(n - 1)
  }

  // ---- Exactly once ----

  /** `was` says whether the source file was already there and not deleted before the first attempt. */
  predicate OnceInv(was: bool, s: State) {
    && (s.disk.Finished() ==> s.pc == Idle)
    && s.disk.triggers == (if s.disk.status == Ingested then 1 else 0)
    && (was ==> s.disk.Live() && s.pc in {Idle, Starting} && s.disk.status in {Waiting, Duplicate}
                && (s.disk.linked <==> s.disk.status == Duplicate))
    && (!was ==> s.disk.status != Duplicate && (s.disk.Live() ==> s.disk.linked))
    && (s.pc in {Transferring, Removing, Recording, Cleaning, Completing, Failing} ==> s.disk.linked)
  }

  lemma StepOnce(cfg: Config, was: bool, s: State, c: Choice)
    requires OnceInv(was, s)
    ensures OnceInv(was, Step(cfg, s, c))
    ensures s.disk.Finished() ==> Step(cfg, s, c) == s
  {
  }

  lemma {:induction false} RunOnce(cfg: Config, was: bool, s: State, cs: seq<Choice>)
    requires OnceInv(was, s)
    ensures OnceInv(was, Run(cfg, s, cs))
    ensures s.disk.Finished() ==> Run(cfg, s, cs) == s
    decreases |cs|
  {
    if cs != [] {
      StepOnce(cfg, was, s, cs[0]);
      RunOnce(cfg, was, Step(cfg, s, cs[0]), cs[1..]);
    }
  }

  /**
   Over any crashes, errors and retries: an ingest marked INGESTED or DUPLICATE stays so, the trigger
   effect is committed once if INGESTED and otherwise never, and it is marked DUPLICATE only if the file
   was already ingested before its first attempt, in which case it is never INGESTED.
   */
  lemma ExactlyOnce(cfg: Config, s: State, cs: seq<Choice>, more: seq<Choice>)
    requires Fresh(cfg, s)
    ensures var t := Run(cfg, s, cs);
            && t.disk.triggers == (if t.disk.status == Ingested then 1 else 0)
            && (t.disk.status == Duplicate ==> s.disk.Live())
            && (t.disk.status == Ingested ==> !s.disk.Live())
            && (t.disk.Finished() ==> Run(cfg, t, more) == t)
  {
    RunOnce(cfg, s.disk.Live(), s, cs);
    RunOnce(cfg, s.disk.Live(), Run(cfg, s, cs), more);
  }

  // ---- No copy is lost ----

  /** The file can be found: where it was, or where the database says it is. */
  predicate HasCopy(cfg: Config, d: Disk) {
    cfg.origin in d.files || (d.Live() && d.source.value.location in d.files)
  }

  /** The original is still there, or its copy is, and is recorded as not deleted. */
  predicate RecordedFirst(cfg: Config, d: Disk) {
    cfg.origin !in d.files ==> d.Live() && d.source.value.location == cfg.Dest() && cfg.Dest() in d.files
  }

  /** What holds when the file is copied or registered: the original goes only after the recording, and never when the copy is refused. */
  predicate CopyInv(cfg: Config, was: bool, s: State) {
    && RecordedFirst(cfg, s.disk)
    && (s.pc == Recording ==> cfg.Dest() in s.disk.files && (cfg.newWorkspace.None? ==> cfg.Dest() == cfg.origin))
    && s.pc != Removing
    && (s.pc in {Cleaning, Completing} ==> s.disk.Live())
    && (s.disk.Live() && s.disk.linked && s.disk.status != Duplicate ==>
          && s.disk.source.value.location in s.disk.files
          && (cfg.newWorkspace.Some? ==> s.disk.source.value.location == cfg.Dest()))
    && (cfg.Refuses() ==> RefusedInv(cfg, was, s))
  }

  predicate RefusedInv(cfg: Config, was: bool, s: State) {
    cfg.origin in s.disk.files && s.disk.Live() == was && s.pc !in {Removing, Recording, Cleaning, Completing}
  }

  lemma StepCopy(cfg: Config, was: bool, s: State, c: Choice)
    requires OnceInv(was, s) && CopyInv(cfg, was, s) && (was || !cfg.Moves())
    ensures CopyInv(cfg, was, Step(cfg, s, c))
  {
  }

  lemma {:induction false} RunCopy(cfg: Config, was: bool, s: State, cs: seq<Choice>)
    requires OnceInv(was, s) && CopyInv(cfg, was, s) && (was || !cfg.Moves())
    ensures CopyInv(cfg, was, Run(cfg, s, cs))
    decreases |cs|
  {
    if cs != [] {
      StepOnce(cfg, was, s, cs[0]);
      StepCopy(cfg, was, s, cs[0]);
      RunCopy(cfg, was, Step(cfg, s, cs[0]), cs[1..]);
    }
  }

  /** An attempt that gets as far as the move, and stops before the recording. */
  function MoveAndStop(cfg: Config): (cs: seq<Choice>) { Gos(if cfg.local then 4 else 5) + [Crash] }

  lemma RunGoes(cfg: Config, s: State, n: nat, rest: seq<Choice>)
    requires n > 0
    ensures Run(cfg, s, Gos(n) + rest) == Run(cfg, Advance(cfg, s), Gos(n - 1) + rest)
  {
    assert (Gos(n) + rest)[1..] == Gos(n - 1) + rest;
  }

  /** The first attempt up to the transfer. */
  lemma RunToTransfer(cfg: Config, s: State, n: nat, rest: seq<Choice>)
    requires Fresh(cfg, s) && !s.disk.Live() && n >= 3
    ensures var t := Advance(cfg, Advance(cfg, Advance(cfg, s)));
            && t.pc == Transferring && t.disk.files == s.disk.files && !t.disk.Live() && !t.disk.Finished()
            && Run(cfg, s, Gos(n) + rest) == Run(cfg, t, Gos(n - 3) + rest)
  {
    RunGoes(cfg, s, n, rest);
    RunGoes(cfg, Advance(cfg, s), n - 1, rest);
    RunGoes(cfg, Advance(cfg, Advance(cfg, s)), n - 2, rest);
  }

  /** Moved but not recorded, the file is where nothing looks for it; an object moved onto itself is nowhere at all. */
  lemma MoveLoses(cfg: Config, s: State)
    requires Fresh(cfg, s) && !s.disk.Live() && cfg.Moves()
    ensures var t := Run(cfg, s, MoveAndStop(cfg));
            && t.pc == Idle && !t.disk.Live() && !t.disk.Finished()
            && t.disk.files == (if cfg.SelfMoves() then s.disk.files - {cfg.origin} else s.disk.files - {cfg.origin} + {cfg.Dest()})
  {
    var n := if cfg.local then 4 else 5;
    RunToTransfer(cfg, s, n, [Crash]);
    var t := Advance(cfg, Advance(cfg, Advance(cfg, s)));
    StopAfterMove(cfg, t);
  }

  lemma StopAfterMove(cfg: Config, t: State)
    requires t.pc == Transferring && !t.disk.Live() && cfg.Moves() && cfg.origin in t.disk.files
    ensures Run(cfg, t, Gos(if cfg.local then 1 else 2) + [Crash]) ==
            State(t.disk.(files := if cfg.SelfMoves() then t.disk.files - {cfg.origin} else t.disk.files - {cfg.origin} + {cfg.Dest()}), Idle)
  {
    var n := if cfg.local then 1 else 2;
    RunGoes(cfg, t, n, [Crash]);
    if !cfg.local { RunGoes(cfg, Advance(cfg, t), 1, [Crash]); }
    assert Gos(0) + [Crash] == [Crash] && [Crash][1..] == [];
  }

  /**
   Over every sequence of crashes, errors and retries, that a copy of the file can be found at every point,
   and that the original is gone only once its copy is there and recorded as not deleted, both hold exactly
   when the file is not moved within its workspace, or was already ingested.
   */
  lemma CopySafety(cfg: Config, s: State)
    requires Fresh(cfg, s)
    ensures (forall cs :: HasCopy(cfg, Run(cfg, s, cs).disk)) <==> s.disk.Live() || !cfg.Moves()
    ensures (forall cs :: RecordedFirst(cfg, Run(cfg, s, cs).disk)) <==> s.disk.Live() || !cfg.Moves()
  {
    if s.disk.Live() || !cfg.Moves() {
      forall cs ensures HasCopy(cfg, Run(cfg, s, cs).disk) && RecordedFirst(cfg, Run(cfg, s, cs).disk) {
        RunCopy(cfg, s.disk.Live(), s, cs);
      }
    } else {
      MoveLoses(cfg, s);
      var d := Run(cfg, s, MoveAndStop(cfg)).disk;
      assert !HasCopy(cfg, d) && !RecordedFirst(cfg, d);
    }
  }

  /** The file is at one of the two places it may be, recorded or not. */
  predicate Somewhere(cfg: Config, d: Disk) { cfg.origin in d.files || cfg.Dest() in d.files }

  lemma {:induction false} RunMoved(cfg: Config, s: State, cs: seq<Choice>)
    requires cfg.Moves() && !cfg.SelfMoves() && Somewhere(cfg, s.disk)
    requires s.pc in {Removing, Recording} ==> cfg.Dest() in s.disk.files
    ensures Somewhere(cfg, Run(cfg, s, cs).disk)
    decreases |cs|
  {
    if cs != [] { RunMoved(cfg, Step(cfg, s, cs[0]), cs[1..]); }
  }

  /** The file itself is in storage at every point of every run, unless an object store is to move it onto itself. */
  lemma FileStays(cfg: Config, s: State)
    requires Fresh(cfg, s)
    ensures (forall cs :: Somewhere(cfg, Run(cfg, s, cs).disk)) <==> s.disk.Live() || !cfg.SelfMoves()
  {
    if !s.disk.Live() && cfg.SelfMoves() {
      MoveLoses(cfg, s);
      assert !Somewhere(cfg, Run(cfg, s, MoveAndStop(cfg)).disk);
    } else {
      forall cs ensures Somewhere(cfg, Run(cfg, s, cs).disk) {
        if s.disk.Live() || !cfg.Moves() { RunCopy(cfg, s.disk.Live(), s, cs); } else { RunMoved(cfg, s, cs); }
      }
    }
  }

  // ---- What a finished ingest leaves ----

  /** The files once the transfer is done. */
  function Placed(cfg: Config, files: set<Location>): (r: set<Location>) {
    if cfg.newWorkspace.Some? then files + {cfg.Dest()}
    else if cfg.newPath.None? then files
    else if cfg.local then files - {cfg.origin} + {cfg.Dest()}
    else files + {cfg.Dest()} - {cfg.origin}
  }

  /** The files once the original is cleaned up too. */
  function Cleaned(cfg: Config, files: set<Location>): (r: set<Location>) {
    if cfg.newWorkspace.Some? && cfg.local then Placed(cfg, files) - {cfg.origin} else Placed(cfg, files)
  }

  /** Where the files stand at each point of an ingest that began with `files` and no live source file. */
  predicate FilesInv(cfg: Config, files: set<Location>, s: State) {
    && (!s.disk.Live() ==>
          s.disk.files in {files, Placed(cfg, files)} || (!cfg.local && s.disk.files == files + {cfg.Dest()}))
    && (s.disk.Live() ==>
          s.disk.source.value.location == cfg.Dest() && s.disk.files in {Placed(cfg, files), Cleaned(cfg, files)})
    && (s.pc == Removing ==> cfg.newWorkspace.None? && cfg.newPath.Some? && !cfg.local && s.disk.files == files + {cfg.Dest()})
    && (s.pc == Recording ==> s.disk.files == Placed(cfg, files))
    && (s.pc in {Cleaning, Completing} ==> s.disk.Live())
    && (s.pc == Completing || s.disk.status == Ingested ==> s.disk.Live() && s.disk.files == Cleaned(cfg, files))
    && (s.pc in {Transferring, Removing, Recording, Cleaning, Completing, Failing} ==> s.disk.status == Ingesting)
  }

  lemma StepFiles(cfg: Config, files: set<Location>, s: State, c: Choice)
    requires OnceInv(false, s) && FilesInv(cfg, files, s) && cfg.origin in files
    ensures FilesInv(cfg, files, Step(cfg, s, c))
  {
    if s.pc == Transferring && c == Go { TransferFiles(cfg, files, s.disk); }
    assert Cleaned(cfg, files) - {cfg.origin} == Cleaned(cfg, files) || !cfg.Deletes();
  }

  lemma TransferFiles(cfg: Config, files: set<Location>, d: Disk)
    requires FilesInv(cfg, files, State(d, Transferring)) && cfg.origin in files
    ensures FilesInv(cfg, files, Transfer(cfg, d))
  {
    assert files + {cfg.Dest()} + {cfg.Dest()} == files + {cfg.Dest()};
    assert cfg.Dest() == cfg.origin ==> files + {cfg.Dest()} == files;
    if !cfg.local && cfg.newWorkspace.None? && cfg.newPath.Some? {
      assert cfg.origin !in Placed(cfg, files);
    }
    if cfg.local && cfg.newWorkspace.None? && cfg.newPath.Some? {
      assert cfg.Dest() == cfg.origin ==> Placed(cfg, files) == files;
      assert cfg.Dest() != cfg.origin ==> cfg.origin !in Placed(cfg, files);
    }
  }

  lemma {:induction false} RunFiles(cfg: Config, files: set<Location>, s: State, cs: seq<Choice>)
    requires OnceInv(false, s) && FilesInv(cfg, files, s) && cfg.origin in files
    ensures FilesInv(cfg, files, Run(cfg, s, cs))
    decreases |cs|
  {
    if cs != [] {
      StepOnce(cfg, false, s, cs[0]);
      StepFiles(cfg, files, s, cs[0]);
      RunFiles(cfg, files, Step(cfg, s, cs[0]), cs[1..]);
    }
  }

  lemma {:induction false} RunDuplicate(cfg: Config, s: State, cs: seq<Choice>)
    requires OnceInv(true, s)
    ensures Run(cfg, s, cs).disk.files == s.disk.files && Run(cfg, s, cs).disk.source == s.disk.source
    decreases |cs|
  {
    if cs != [] {
      StepOnce(cfg, true, s, cs[0]);
      RunDuplicate(cfg, Step(cfg, s, cs[0]), cs[1..]);
    }
  }

  /**
   However an ingest got there, once INGESTED its source file is recorded as not deleted where it was to go,
   the files are those of one transfer and clean-up, and the trigger took effect once; once DUPLICATE
   nothing was touched.
   */
  lemma FinalState(cfg: Config, s: State, cs: seq<Choice>)
    requires Fresh(cfg, s)
    ensures var d := Run(cfg, s, cs).disk;
            && (d.status == Ingested ==>
                  d == Disk(Ingested, true, Some(SourceFile(false, cfg.Dest())), Cleaned(cfg, s.disk.files), 1))
            && (d.status == Duplicate ==> d == Disk(Duplicate, true, s.disk.source, s.disk.files, 0))
  {
    RunOnce(cfg, s.disk.Live(), s, cs);
    if s.disk.Live() { RunDuplicate(cfg, s, cs); } else { RunFiles(cfg, s.disk.files, s, cs); }
  }

  // ---- Retrying ----

  /** An attempt from `s` until it ends; it dies when the choices run out. */
  function Attempt(cfg: Config, s: State, cs: seq<Choice>): (d: Disk)
    decreases |cs|
  {
    if cs == [] then s.disk
    else
      var s' := Step(cfg, s, cs[0]);
      if s'.pc == Idle then s'.disk else Attempt(cfg, s', cs[1..])
  }

  lemma AttemptGoes(cfg: Config, s: State, n: nat)
    requires n > 0
    ensures Attempt(cfg, s, Gos(n)) ==
            var s' := Advance(cfg, s); if s'.pc == Idle then s'.disk else Attempt(cfg, s', Gos(n - 1))
  {
    assert ([Go] + Gos(n - 1))[1..] == Gos(n - 1);
  }

  /** How many operations an attempt without trouble needs to finish, at most. */
  function Left(pc: Pc): (n: nat) {
    match pc
    case Idle => 8
    case Starting => 7
    case Linking => 6
    case Transferring => 5
    case Removing => 4
    case Recording => 3
    case Cleaning => 2
    case Completing => 1
    case Failing => 1
  }

  /** The transfer is done, under way, or can be made. */
  predicate OnTrack(cfg: Config, s: State) {
    && s.pc != Failing && !cfg.Refuses()
    && (s.pc in {Cleaning, Completing} ==> s.disk.Live())
    && (s.disk.Live() || s.pc == Recording || cfg.origin in s.disk.files || (cfg.newWorkspace.None? && cfg.newPath.None?))
  }

  lemma StaysOnTrack(cfg: Config, s: State)
    requires OnceInv(false, s) && OnTrack(cfg, s)
    ensures var s' := Advance(cfg, s);
            && OnTrack(cfg, s')
            && (s'.pc == Idle ==> s'.disk.status == Ingested) && (s'.pc != Idle ==> Left(s'.pc) < Left(s.pc))
  {
  }

  lemma {:induction false} CleanAttempt(cfg: Config, s: State, n: nat)
    requires OnceInv(false, s) && OnTrack(cfg, s) && n >= Left(s.pc)
    ensures Attempt(cfg, s, Gos(n)).status == Ingested
    decreases n
  {
    StaysOnTrack(cfg, s);
    StepOnce(cfg, false, s, Go);
    AttemptGoes(cfg, s, n);
    if Advance(cfg, s).pc != Idle { CleanAttempt(cfg, Advance(cfg, s), n - 1); }
  }

  /** The move has happened and was never recorded. */
  predicate Stranded(cfg: Config, d: Disk) { cfg.Moves() && cfg.origin !in d.files && !d.Live() }

  /** No attempt can get past the transfer. */
  predicate OffTrack(cfg: Config, s: State) {
    && !s.disk.Live() && !s.disk.Finished() && s.pc !in {Removing, Recording, Cleaning, Completing}
    && (cfg.Refuses() || Stranded(cfg, s.disk))
  }

  lemma StaysOffTrack(cfg: Config, s: State, c: Choice)
    requires OffTrack(cfg, s)
    ensures var s' := Step(cfg, s, c);
            && OffTrack(cfg, s') && s'.disk.files == s.disk.files && s'.disk.triggers == s.disk.triggers
            && (c == Go && s'.pc == Idle ==> s'.disk.status == Errored)
            && (c == Go && s'.pc != Idle ==> Left(s'.pc) < Left(s.pc))
  {
  }

  lemma {:induction false} FailedAttempt(cfg: Config, s: State, n: nat)
    requires OffTrack(cfg, s) && n >= Left(s.pc)
    ensures Attempt(cfg, s, Gos(n)).status == Errored
    decreases n
  {
    StaysOffTrack(cfg, s, Go);
    AttemptGoes(cfg, s, n);
    if Advance(cfg, s).pc != Idle { FailedAttempt(cfg, Advance(cfg, s), n - 1); }
  }

  lemma {:induction false} RunOffTrack(cfg: Config, s: State, cs: seq<Choice>)
    requires OffTrack(cfg, s)
    ensures OffTrack(cfg, Run(cfg, s, cs))
    ensures Run(cfg, s, cs).disk.files == s.disk.files && Run(cfg, s, cs).disk.triggers == s.disk.triggers
    decreases |cs|
  {
    if cs != [] {
      StaysOffTrack(cfg, s, cs[0]);
      RunOffTrack(cfg, Step(cfg, s, cs[0]), cs[1..]);
    }
  }

  lemma DuplicateAttempt(cfg: Config, s: State)
    requires OnceInv(true, s) && s.pc == Idle
    ensures Attempt(cfg, s, Gos(8)).status == Duplicate
  {
    AttemptGoes(cfg, s, 8);
    AttemptGoes(cfg, Advance(cfg, s), 7);
  }

  /** An error during the transfer or the clean-up ends the attempt ERRORED, and a death leaves it as it was. */
  lemma ErrorIsMarked(cfg: Config, s: State)
    requires s.pc in {Transferring, Removing, Recording, Cleaning}
    ensures Attempt(cfg, s, [Raise, Go]) == s.disk.(status := Errored) && Attempt(cfg, s, [Crash]) == s.disk
  {
    assert [Raise, Go][1..] == [Go] && [Go][1..] == [];
  }

  /** An ingest told to copy a local file onto itself never finishes, in any run, and never loses the file. */
  lemma SelfCopyNeverFinishes(cfg: Config, s: State, cs: seq<Choice>)
    requires Fresh(cfg, s) && !s.disk.Live() && cfg.Refuses()
    ensures var d := Run(cfg, s, cs).disk;
            !d.Finished() && !d.Live() && d.triggers == 0 && d.files == s.disk.files
  {
    RunOffTrack(cfg, s, cs);
  }

  /** An ingest stranded by a stop between its move and the recording never finishes, in any run of retries. */
  lemma StrandedNeverFinishes(cfg: Config, s: State, cs: seq<Choice>, more: seq<Choice>)
    requires Fresh(cfg, s) && Run(cfg, s, cs).pc == Idle && Stranded(cfg, Run(cfg, s, cs).disk)
    ensures var d := Run(cfg, Run(cfg, s, cs), more).disk;
            !d.Finished() && Stranded(cfg, d) && d.triggers == 0
  {
    var t := Run(cfg, s, cs);
    StrandedIdle(cfg, s, cs);
    RunOffTrack(cfg, t, more);
    RunOnce(cfg, s.disk.Live(), s, cs);
  }

  lemma StrandedIdle(cfg: Config, s: State, cs: seq<Choice>)
    requires Fresh(cfg, s) && Run(cfg, s, cs).pc == Idle && Stranded(cfg, Run(cfg, s, cs).disk)
    ensures !s.disk.Live() && OffTrack(cfg, Run(cfg, s, cs))
  {
    RunOnce(cfg, s.disk.Live(), s, cs);
    RunIngestedLive(cfg, s, cs);
  }

  /** Nothing is completed, or marked INGESTED, before it is recorded. */
  predicate CompletedLive(s: State) {
    s.disk.status == Ingested || s.pc in {Cleaning, Completing} ==> s.disk.Live()
  }

  lemma {:induction false} RunIngestedLive(cfg: Config, s: State, cs: seq<Choice>)
    requires CompletedLive(s)
    ensures CompletedLive(Run(cfg, s, cs))
    decreases |cs|
  {
    if cs != [] { RunIngestedLive(cfg, Step(cfg, s, cs[0]), cs[1..]); }
  }

  lemma IdleOnTrack(cfg: Config, s: State, cs: seq<Choice>)
    requires Fresh(cfg, s) && !s.disk.Live() && !cfg.Refuses()
    requires Run(cfg, s, cs).pc == Idle && !Stranded(cfg, Run(cfg, s, cs).disk)
    ensures OnTrack(cfg, Run(cfg, s, cs))
  {
    if !cfg.Moves() { RunCopy(cfg, false, s, cs); }
  }

  /**
   However earlier attempts ended, one attempt that meets no trouble picks up where they left off and
   finishes the ingest, with two exceptions in which it ends ERRORED: the file is to be copied onto itself,
   or an earlier attempt stopped between moving the file and recording it.
   */
  lemma RetryFinishes(cfg: Config, s: State, cs: seq<Choice>)
    requires Fresh(cfg, s) && Run(cfg, s, cs).pc == Idle
    ensures Attempt(cfg, Run(cfg, s, cs), Gos(8)).status ==
            if s.disk.Live() then Duplicate
            else if cfg.Refuses() || Stranded(cfg, Run(cfg, s, cs).disk) then Errored
            else Ingested
  {
    var t := Run(cfg, s, cs);
    RunOnce(cfg, s.disk.Live(), s, cs);
    if s.disk.Live() {
      DuplicateAttempt(cfg, t);
    } else if cfg.Refuses() {
      RunOffTrack(cfg, s, cs);
      FailedAttempt(cfg, t, 8);
    } else if Stranded(cfg, t.disk) {
      StrandedIdle(cfg, s, cs);
      FailedAttempt(cfg, t, 8);
    } else {
      IdleOnTrack(cfg, s, cs);
      CleanAttempt(cfg, t, 8);
    }
  }

  // ---- The job ----

  /** An attempt is the beginning of a run: what holds over all runs holds after any sequence of attempts. */
  lemma {:induction false} AttemptIsRun(cfg: Config, s: State, cs: seq<Choice>)
    ensures exists n :: 0 <= n <= |cs| && Attempt(cfg, s, cs) == Run(cfg, s, cs[..n]).disk
    decreases |cs|
  {
    if cs == [] {
      assert cs[..0] == [];
    } else {
      var s' := Step(cfg, s, cs[0]);
      if s'.pc == Idle {
        assert cs[..1][1..] == [];
        assert Run(cfg, s, cs[..1]) == s';
      } else {
        AttemptIsRun(cfg, s', cs[1..]);
        var n :| 0 <= n <= |cs[1..]| && Attempt(cfg, s', cs[1..]) == Run(cfg, s', cs[1..][..n]).disk;
        assert cs[..n + 1][1..] == cs[1..][..n];
        assert Run(cfg, s, cs[..n + 1]) == Run(cfg, s', cs[1..][..n]);
      }
    }
  }

  class Job {
    var status: Status
    var linked: bool
    var source: Option<SourceFile>
    var files: set<Location>
    var triggers: nat

    ghost function Contents(): (d: Disk)
      reads this
    {
      Disk(status, linked, source, files, triggers)
    }

    constructor (d: Disk)
      ensures Contents() == d
    {
      status, linked, source, files, triggers := d.status, d.linked, d.source, d.files, d.triggers;
    }

    /** `_start_ingest`; `going` unless the attempt is over. */
    method StartIngest(cfg: Config, cs: seq<Choice>) returns (going: bool, ghost s: State, rest: seq<Choice>)
      requires status !in {Ingested, Duplicate}
      modifies this
      ensures Contents() == s.disk && s.pc == (if going then Transferring else Idle)
      ensures going ==> linked && status == Ingesting
      ensures Attempt(cfg, State(old(Contents()), Starting), cs) == if going then Attempt(cfg, s, rest) else s.disk
    {
      going, s, rest := false, State(Contents(), Idle), [];
      if cs == [] || cs[0] != Go {
        return;
      }
      if !linked {
        if source.Some? && !source.value.deleted {
          linked, status := true, Duplicate;
          s := State(Contents(), Idle);
          return;
        }
        if source.None? {
          source := Some(SourceFile(true, cfg.origin));
        }
      }
      s := State(Contents(), Idle);
      if |cs| == 1 || cs[1] != Go {
        assert |cs| > 1 ==> Step(cfg, State(s.disk, Linking), cs[1]) == s;
        return;
      }
      linked, status := true, Ingesting;
      going, s, rest := true, State(Contents(), Transferring), cs[1..][1..];
    }

    /** The next operation does not happen: the process dies, or the operation raises. */
    method StopHere(cs: seq<Choice>) returns (failed: bool, ghost s: State, rest: seq<Choice>)
      requires cs != [] ==> cs[0] != Go
      ensures failed == (cs != [] && cs[0] == Raise)
      ensures s == State(Contents(), if failed then Failing else Idle) && rest == if failed then cs[1..] else []
    {
      failed := cs != [] && cs[0] == Raise;
      s := State(Contents(), if failed then Failing else Idle);
      rest := if failed then cs[1..] else [];
    }

    /** The save of the source file once its file is in place. */
    method RecordFile(cfg: Config, cs: seq<Choice>) returns (going: bool, failed: bool, ghost s: State, rest: seq<Choice>)
      modifies this`source
      ensures Contents() == s.disk && !(going && failed)
      ensures s.pc == (if going then Cleaning else if failed then Failing else Idle)
      ensures Attempt(cfg, State(old(Contents()), Recording), cs) ==
              if going || failed then Attempt(cfg, s, rest) else s.disk
    {
      if cs == [] || cs[0] != Go {
        going := false;
        failed, s, rest := StopHere(cs);
        return;
      }
      source := Some(SourceFile(false, cfg.Dest()));
      going, failed, s, rest := true, false, State(Contents(), Cleaning), cs[1..];
    }

    /** The second half of an object store's move, and the save. */
    method RemoveAndRecord(cfg: Config, cs: seq<Choice>)
        returns (going: bool, failed: bool, ghost s: State, rest: seq<Choice>)
      modifies this`source, this`files
      ensures Contents() == s.disk && !(going && failed)
      ensures s.pc == (if going then Cleaning else if failed then Failing else Idle)
      ensures Attempt(cfg, State(old(Contents()), Removing), cs) ==
              if going || failed then Attempt(cfg, s, rest) else s.disk
    {
      if cs == [] || cs[0] != Go {
        going := false;
        failed, s, rest := StopHere(cs);
        return;
      }
      files := files - {cfg.origin};
      going, failed, s, rest := RecordFile(cfg, cs[1..]);
    }

    /** The copy, move or registration; `failed` when it raised, over when neither `going` nor `failed`. */
    method TransferFile(cfg: Config, cs: seq<Choice>) returns (going: bool, failed: bool, ghost s: State, rest: seq<Choice>)
      modifies this`source, this`files
      ensures Contents() == s.disk && !(going && failed)
      ensures s.pc == (if going then Cleaning else if failed then Failing else Idle)
      ensures Attempt(cfg, State(old(Contents()), Transferring), cs) ==
              if going || failed then Attempt(cfg, s, rest) else s.disk
    {
      if cs == [] || cs[0] != Go {
        going := false;
        failed, s, rest := StopHere(cs);
        return;
      }
      going, failed, rest := false, false, cs[1..];
      var deleted := source.None? || source.value.deleted;
      if !deleted || (cfg.newWorkspace.None? && cfg.newPath.None?) {
        if deleted { source := Some(SourceFile(false, cfg.origin)); }
        going, s := true, State(Contents(), Cleaning);
      } else if cfg.Refuses() || cfg.origin !in files {
        failed, s := true, State(Contents(), Failing);
      } else if cfg.newWorkspace.Some? {
        files := files + {cfg.Dest()};
        going, failed, s, rest := RecordFile(cfg, rest);
      } else if cfg.local {
        files := files - {cfg.origin} + {cfg.Dest()};
        going, failed, s, rest := RecordFile(cfg, rest);
      } else {
        files := files + {cfg.Dest()};
        going, failed, s, rest := RemoveAndRecord(cfg, rest);
      }
    }

    /** `perform_ingest`; each operation goes as the next choice says, and the process dies when they run out. */
    method PerformIngest(cfg: Config, cs: seq<Choice>)
      modifies this
      ensures Contents() == Attempt(cfg, State(old(Contents()), Idle), cs)
    {
      if cs == [] || cs[0] != Go || status in {Ingested, Duplicate} {
        return;
      }
      ghost var s: State;
      var going, failed, rest := false, false, cs[1..];
      going, s, rest := StartIngest(cfg, rest);
      if !going {
        return;
      }
      going, failed, s, rest := TransferFile(cfg, rest);
      if going {
        if rest == [] || rest[0] == Crash {
          return;
        }
        if rest[0] == Raise {
          failed := true;
        } else {
          if cfg.Deletes() {
            files := files - {cfg.origin};
          }
          if |rest| > 1 && rest[1] == Go {
            status, triggers := Ingested, triggers + 1;
          }
          return;
        }
        rest := rest[1..];
      }
      if failed && rest != [] && rest[0] == Go {
        status := Errored;
      }
    }
  }
}
