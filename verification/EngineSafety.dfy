/**
 Safety of the research engine over whole runs: every step of every actor keeps `Good`, and
 what the repository promises about resuming, lives of tasks, the worker thread and the
 provider registry follows for every run.
 */
module EngineSafety {
  import opened Wrappers
  import opened TaskStore
  import opened Engine
  import P = Providers

  // ---------------------------------------------------------------- requests never touch the running task

  ghost predicate Same(db: Db, db': Db, t: TaskId) {
    && t in db.tasks && t in db'.tasks && db'.tasks[t] == db.tasks[t]
    && Trace(db'.events, t) == Trace(db.events, t)
  }

  /** While a task runs, no request moves it, deletes it or adds to its events. */
  lemma {:induction false} RequestsLeaveRunning(e: Engine, a: Action, t: TaskId)
    requires IsRequest(a) && t in e.db.tasks && e.db.tasks[t].status.Running?
    ensures Same(e.db, Request(e, a).db, t)
  {
    match a {
      case Resume(id) =>
        if Requeue(e.db, id).Ok? {
          TraceOfLog(e.db, id, QueuedEvent, t);
          assert Requeue(e.db, id).value.events == Log(e.db, id, QueuedEvent).events;
        }
      case Delete(id) =>
        if DeleteTask(e.db, id).Ok? {
          WithoutTraces(e.db.events, id, t);
        }
      case _ =>
    }
  }

  lemma {:induction false} RequestTables(e: Engine, a: Action)
    requires IsRequest(a) && Consistent(e.db)
    ensures Consistent(Request(e, a).db)
  {
    match a {
      case Create(id, params, now) =>
        CreateInTables(e, id, params, now);
      case Rerun(source, id, now) =>
        if source in e.db.tasks { CreateInTables(e, id, e.db.tasks[source].params, now); }
      case Resume(id) =>
        if Requeue(e.db, id).Ok? { RequeueKeeps(e.db, id); }
      case Delete(id) =>
        if DeleteTask(e.db, id).Ok? { DeleteKeeps(e.db, id); }
      case _ =>
        if e.db.settings.joined.Some? {
          RegistryAside(e, a);
          SettingsAside(e.db, Request(e, a).db);
        }
    }
  }

  lemma {:induction false} CreateInTables(e: Engine, id: TaskId, params: Params, now: int)
    requires Consistent(e.db)
    ensures Consistent(CreateIn(e, id, params, now).db)
  {
    if CreateTask(e.db, id, params, now).Ok? { CreateKeeps(e.db, id, params, now); }
  }

  lemma {:induction false} RegistryAside(e: Engine, a: Action)
    requires e.db.settings.joined.Some?
    ensures Registry(e, a).db == e.db.(settings := Registry(e, a).db.settings)
    ensures Registry(e, a) == e.(db := Registry(e, a).db)
  {
  }

  lemma {:induction false} SettingsAside(db: Db, db': Db)
    requires Consistent(db) && db' == db.(settings := db'.settings)
    ensures Consistent(db')
  {
    ConsistentMeans(db);
    ConsistentMeans(db');
    forall t | t in db'.tasks
      ensures Lives(db', t)
    {
      assert Lives(db, t);
    }
  }

  /** A request starts nothing: it adds a queued task, requeues one, removes one, or touches settings. */
  lemma {:induction false} RequestStartsNothing(e: Engine, a: Action)
    requires IsRequest(a)
    ensures var e' := Request(e, a);
            && e'.files == e.files && e'.worker == e.worker && e'.starts == e.starts
            && forall t :: t in e'.db.tasks ==>
                 || (t in e.db.tasks && e'.db.tasks[t] == e.db.tasks[t])
                 || (t in e.db.tasks && e'.db.tasks[t].status.Queued? && e'.db.tasks[t].resumeRequested)
                 || (t !in e.used && e'.db.tasks[t].status.Queued?)
    ensures var e' := Request(e, a);
            e.used <= e'.used && forall t :: t in e'.db.tasks ==> t in e.db.tasks || t in e'.used
  {
    if e.db.settings.joined.Some? && !(a.Create? || a.Rerun? || a.Resume? || a.Delete?) {
      RegistryAside(e, a);
    }
  }

  lemma {:induction false} RequestHistory(e: Engine, a: Action)
    requires HistoryOk(e) && IsRequest(a)
    ensures HistoryOk(Request(e, a))
  {
    var e' := Request(e, a);
    RequestStartsNothing(e, a);
    SameStarts(e, e');
    forall t | t in e'.db.tasks
      ensures t in e'.used
      ensures e'.db.tasks[t].status.Queued? && !e'.db.tasks[t].resumeRequested ==> !Begun(e', t)
    {
      assert t !in e.used ==> !Begun(e, t);
    }
  }

  lemma {:induction false} SameStarts(e: Engine, e': Engine)
    requires e'.starts == e.starts
    ensures forall t :: Begun(e', t) == Begun(e, t)
  {
  }

  lemma {:induction false} RequestKeeps(e: Engine, a: Action)
    requires Good(e) && IsRequest(a)
    ensures Good(Request(e, a))
  {
    RequestTables(e, a);
    RequestHistory(e, a);
    RequestWorker(e, a);
    RequestStartsNothing(e, a);
  }

  lemma {:induction false} RequestWorker(e: Engine, a: Action)
    requires WorkerOk(e) && IsRequest(a)
    ensures WorkerOk(Request(e, a))
  {
    var e' := Request(e, a);
    RequestStartsNothing(e, a);
    SameStarts(e, e');
    if e.worker.Busy? {
      RequestsLeaveRunning(e, a, e.worker.task);
      PcFrame(e, e');
    }
  }

  lemma {:induction false} PcFrame(e: Engine, e': Engine)
    requires e.worker.Busy? && e'.worker == e.worker && e'.files == e.files && e'.starts == e.starts
    requires PcOk(e, e.worker.task, e.worker.resume, e.worker.pc)
    ensures PcOk(e', e.worker.task, e.worker.resume, e.worker.pc)
  {
    SameStarts(e, e');
  }

  // ---------------------------------------------------------------- process life

  lemma {:induction false} LifeKeeps(e: Engine, a: Action)
    requires Good(e)
    ensures Good(Life(e, a))
  {
    var e' := Life(e, a);
    SameStarts(e, e');
    if e' != e {
      match a {
        case Boot(ids) => InterruptKeeps(e.db, ids);
        case Claim(next) => ClaimKeeps(e.db, next, e'.db);
        case _ => if e.worker.Busy? && e'.worker.Busy? { LossPc(e, e'); }
      }
    }
  }

  /** Losing a key or a tag never makes rows look like another task's. */
  lemma {:induction false} LossPc(e: Engine, e': Engine)
    requires e.worker.Busy? && e'.worker == e.worker && e'.starts == e.starts
    requires e'.files.checkpoints == e.files.checkpoints
    requires forall thread :: thread in e'.files.tags ==> thread in e.files.tags && e'.files.tags[thread] == e.files.tags[thread]
    requires PcOk(e, e.worker.task, e.worker.resume, e.worker.pc)
    ensures PcOk(e', e.worker.task, e.worker.resume, e.worker.pc)
  {
    SameStarts(e, e');
  }

  // ---------------------------------------------------------------- the worker's transactions

  lemma {:induction false} WorkHistory(e: Engine, e': Engine)
    requires HistoryOk(e) && e.worker.Busy? && e'.starts == e.starts && e'.used == e.used
    requires e'.db.tasks.Keys == e.db.tasks.Keys
    requires forall t :: t in e.db.tasks ==> e'.db.tasks[t] == e.db.tasks[t] || !e'.db.tasks[t].status.Queued?
    ensures HistoryOk(e')
  {
    SameStarts(e, e');
  }

  /** `running` and `section` events extend the running task's open phase. */
  lemma {:induction false} AppendKeeps(db: Db, t: TaskId, kind: Kind)
    requires Consistent(db) && t in db.tasks && db.tasks[t].status.Running? && Lives(db, t)
    requires Advance(PhaseOf(Trace(db.events, t)).value, kind) == Some(Open(true))
    ensures Consistent(Log(db, t, kind))
  {
    ConsistentMeans(db);
    assert Put(db, t, db.tasks[t]) == db;
    ChangeKeeps(db, t, db.tasks[t], kind);
  }

  lemma {:induction false} AppendPhase(db: Db, t: TaskId, kind: Kind)
    requires PhaseOf(Trace(db.events, t)).Some?
    requires Advance(PhaseOf(Trace(db.events, t)).value, kind) == Some(Open(true))
    ensures PhaseOf(Trace(Log(db, t, kind).events, t)) == Some(Open(true))
  {
    TraceOfLog(db, t, kind, t);
    PhaseOfMore(Trace(db.events, t), kind);
  }

  lemma {:induction false} AppendWork(e: Engine, kind: Kind, pc: Pc)
    requires Good(e) && e.worker.Busy? && PcOk(e, e.worker.task, e.worker.resume, pc) && !pc.Claiming?
    requires (e.worker.pc.Claiming? && kind.RunningEvent?) || (!e.worker.pc.Claiming? && kind.SectionEvent?)
    ensures Good(e.(db := Log(e.db, e.worker.task, kind), worker := e.worker.(pc := pc)))
  {
    ConsistentMeans(e.db);
    var e' := e.(db := Log(e.db, e.worker.task, kind), worker := e.worker.(pc := pc));
    AppendKeeps(e.db, e.worker.task, kind);
    AppendPhase(e.db, e.worker.task, kind);
    WorkHistory(e, e');
    SameStarts(e, e');
  }

  lemma {:induction false} EmitWork(e: Engine, section: string, text: string)
    requires Good(e) && e.worker.Busy? && e.worker.pc.Streaming? && e.worker.pc.unlogged.None?
    ensures Good(Work(e, Emit(section, text)))
  {
    ConsistentMeans(e.db);
    var e' := Work(e, Emit(section, text));
    SaveKeeps(e.db, e.worker.task, section, text);
    assert HistoryOk(e') by { WorkHistory(e, e'); }
    assert WorkerOk(e') by { SameStarts(e, e'); }
  }

  /** Inside a run, `fail` never fails, so no exception leaves the worker thread. */
  lemma {:induction false} FailWork(e: Engine)
    requires Good(e) && e.worker.Busy? && e.worker.pc.Raised?
    ensures Good(Work(e, Conclude)) && Work(e, Conclude).worker.Idle?
  {
    var t, e' := e.worker.task, Work(e, Conclude);
    FailKeeps(e.db, t, "Analysis failed; partial reports were preserved");
    WorkHistory(e, e');
    NoneRuns(e.db, e'.db, t);
  }

  /** Inside a run, `finish` fails only for its rating or decision. */
  lemma {:induction false} FinishWork(e: Engine)
    requires Good(e) && e.worker.Busy? && e.worker.pc.Decided?
    ensures Good(Work(e, Conclude))
    ensures Work(e, Conclude).worker.Idle? ==
            (e.worker.pc.rating in RATINGS && DecisionSaved(e.db.tasks[e.worker.task], e.worker.pc.decision))
  {
    var t, e' := e.worker.task, Work(e, Conclude);
    WorkHistory(e, e');
    if Finish(e.db, t, e.worker.pc.rating, e.worker.pc.decision).Ok? {
      FinishKeeps(e.db, t, e.worker.pc.rating, e.worker.pc.decision);
      NoneRuns(e.db, e'.db, t);
    }
  }

  lemma {:induction false} NoneRuns(db: Db, db': Db, t: TaskId)
    requires Consistent(db) && t in db.tasks && db.tasks[t].status.Running?
    requires t in db'.tasks && db'.tasks == db.tasks[t := db'.tasks[t]] && !db'.tasks[t].status.Running?
    ensures !AnyRunning(db')
  {
    ConsistentMeans(db);
  }

  // ---------------------------------------------------------------- the worker's files

  /** A resume that is admitted holds rows and a tag of its own; a fresh run holds none. */
  lemma {:induction false} AdmittedHolds(e: Engine, t: TaskId, p: Shape, creds: Creds)
    requires RowsBound(e) && HasCheckpoint(e.files, p) && Verifies(e.files, t, p, creds)
    ensures Holds(e, t, p.thread, creds)
  {
  }

  lemma {:induction false} ClearedRows(e: Engine, e': Engine, thread: Thread)
    requires RowsBound(e) && e'.starts == e.starts && e'.files == ClearCheckpoint(e.files, thread)
    ensures RowsBound(e')
  {
  }

  lemma {:induction false} AdmitWork(e: Engine, config: Config, creds: Creds)
    requires Good(e) && e.worker.Busy? && e.worker.pc.Announced?
    ensures Good(Work(e, Admit(config, creds)))
  {
    var e', p := Work(e, Admit(config, creds)), ShapeOf(e.worker.params, config);
    SameStarts(e, e');
    WorkHistory(e, e');
    if e.worker.resume {
      if e'.worker.pc.Admitted? {
        AdmittedHolds(e, e.worker.task, p, creds);
      }
    } else if HasCheckpoint(e.files, p) {
      ClearedRows(e, e', p.thread);
    }
  }

  lemma {:induction false} KeyWork(e: Engine, a: Action)
    requires Good(e) && e.worker.Busy? && (if e.worker.pc.Cleared? then a.OpenKey? else e.worker.pc.Minting? && a.Mint?)
    ensures Good(Work(e, a))
  {
    var e' := Work(e, a);
    SameStarts(e, e');
  }

  lemma {:induction false} BindWork(e: Engine)
    requires Good(e) && e.worker.Busy? && e.worker.pc.Cleared?
    ensures Good(Work(e, Bind))
  {
    var e' := Work(e, Bind);
    SameStarts(e, e');
  }

  lemma {:induction false} BeginWork(e: Engine)
    requires Good(e) && e.worker.Busy? && e.worker.pc.Admitted?
    ensures Good(Work(e, Begin))
  {
    var w, creds := e.worker, e.worker.pc.creds;
    var e' := Work(e, Begin);
    var begun := e'.starts[|e.starts|];
    assert forall i :: 0 <= i < |e.starts| ==> e'.starts[i] == e.starts[i];
    assert StartOk(e'.starts, |e.starts|) by {
      assert w.resume ==> begun.base == e.files.checkpoints[w.pc.shape.thread];
    }
    forall i | 0 <= i < |e'.starts|
      ensures StartOk(e'.starts, i) && e'.starts[i].task in e'.used
    {
      assert i < |e.starts| ==> StartOk(e.starts, i);
    }
    forall t | t in e'.db.tasks && t != w.task
      ensures Begun(e', t) == Begun(e, t)
    {
      assert Begun(e, t) ==> Begun(e', t) by {
        if i :| 0 <= i < |e.starts| && e.starts[i].task == t { assert e'.starts[i].task == t; }
      }
    }
  }

  lemma {:induction false} CheckpointRows(e: Engine, e': Engine, row: Write)
    requires RowsBound(e) && WorkerOk(e) && e.worker.Busy? && e.worker.pc.Streaming? && e.worker.pc.shape.checkpoint
    requires row.run == e.worker.pc.run && e'.starts == e.starts && e'.worker == e.worker && e'.files.tags == e.files.tags
    requires var thread := e.worker.pc.shape.thread;
             e'.files.checkpoints == e.files.checkpoints[thread := Saved(e.files, thread) + [row]]
    ensures RowsBound(e') && PcOk(e', e.worker.task, e.worker.resume, e.worker.pc)
  {
    var rows := Saved(e.files, e.worker.pc.shape.thread);
    assert forall w :: w in rows + [row] ==> w in rows || w == row;
  }

  lemma {:induction false} CheckpointWork(e: Engine, data: int)
    requires Good(e) && e.worker.Busy? && e.worker.pc.Streaming?
    ensures Good(Work(e, Checkpoint(data)))
  {
    var e' := Work(e, Checkpoint(data));
    if e.worker.pc.shape.checkpoint {
      CheckpointRows(e, e', Write(e.worker.pc.run, data));
      WorkHistory(e, e');
    }
  }

  lemma {:induction false} SucceedWork(e: Engine, rating: string)
    requires Good(e) && e.worker.Busy? && e.worker.pc.Streaming?
    ensures Good(Work(e, Succeed(rating)))
  {
    var e' := Work(e, Succeed(rating));
    SameStarts(e, e');
  }

  predicate Entering(pc: Pc) {
    pc.Claiming? || pc.Announced? || pc.Cleared? || pc.Minting? || pc.Admitted?
  }

  lemma {:induction false} ClearedKeeps(e: Engine, a: Action)
    requires Good(e) && e.worker.Busy? && (e.worker.pc.Cleared? || e.worker.pc.Minting?)
    ensures Good(Work(e, a))
  {
    if e.worker.pc.Cleared? && a.Bind? {
      BindWork(e);
    } else if (e.worker.pc.Cleared? && a.OpenKey?) || (e.worker.pc.Minting? && a.Mint?) {
      KeyWork(e, a);
    } else {
      QuietWork(e, a);
    }
  }

  lemma {:induction false} EnteringKeeps(e: Engine, a: Action)
    requires Good(e) && e.worker.Busy? && Entering(e.worker.pc)
    ensures Good(Work(e, a))
  {
    match e.worker.pc {
      case Claiming => if a.Announce? { AppendWork(e, RunningEvent, Announced); }
      case Announced => if a.Admit? { AdmitWork(e, a.config, a.creds); } else { QuietWork(e, a); }
      case Admitted(_, _) => if a.Begin? { BeginWork(e); } else { QuietWork(e, a); }
      case _ => ClearedKeeps(e, a);
    }
  }

  lemma {:induction false} WorkKeeps(e: Engine, a: Action)
    requires Good(e) && e.worker.Busy?
    ensures Good(Work(e, a))
  {
    if Entering(e.worker.pc) {
      EnteringKeeps(e, a);
    } else if e.worker.pc.Streaming? {
      StreamWork(e, a);
    } else if a.Conclude? && e.worker.pc.Decided? {
      FinishWork(e);
    } else if a.Conclude? && e.worker.pc.Raised? {
      FailWork(e);
    } else {
      QuietWork(e, a);
    }
  }

  lemma {:induction false} StreamWork(e: Engine, a: Action)
    requires Good(e) && e.worker.Busy? && e.worker.pc.Streaming?
    ensures Good(Work(e, a))
  {
    var pc := e.worker.pc;
    if a.Checkpoint? {
      CheckpointWork(e, a.data);
    } else if a.Emit? && pc.unlogged.None? {
      EmitWork(e, a.section, a.text);
    } else if a.LogEmit? && pc.unlogged.Some? {
      AppendWork(e, SectionEvent(pc.unlogged.value.0, pc.unlogged.value.1), Streaming(pc.run, pc.shape, None));
    } else if a.Succeed? && pc.unlogged.None? {
      SucceedWork(e, a.rating);
    } else {
      QuietWork(e, a);
    }
  }

  /** The steps that move no table, tag or checkpoint row. */
  lemma {:induction false} QuietFrame(e: Engine, a: Action)
    requires e.worker.Busy? && !e.worker.pc.Claiming?
    requires a.ReadDecision? || a.Fault? || Work(e, a) == e
    ensures var e' := Work(e, a);
            && e' == e.(files := e'.files, worker := e'.worker)
            && e'.files == e.files
            && e'.worker.Busy? && e'.worker == e.worker.(pc := e'.worker.pc)
            && (e'.worker.pc == e.worker.pc || e'.worker.pc.Decided? || e'.worker.pc.Raised?)
  {
  }

  lemma {:induction false} QuietWork(e: Engine, a: Action)
    requires Good(e) && e.worker.Busy? && !e.worker.pc.Claiming?
    requires a.ReadDecision? || a.Fault? || Work(e, a) == e
    ensures Good(Work(e, a))
  {
    var e' := Work(e, a);
    QuietFrame(e, a);
    SameStarts(e, e');
  }

  // ---------------------------------------------------------------- whole runs

  lemma {:induction false} StepKeeps(e: Engine, a: Action)
    requires Good(e)
    ensures Good(Step(e, a))
  {
    if IsRequest(a) {
      RequestKeeps(e, a);
    } else if a.Boot? || a.Exit? || a.Crash? || a.LoseKey? || a.LoseTag? || a.Claim? {
      LifeKeeps(e, a);
    } else if e.worker.Busy? {
      WorkKeeps(e, a);
    }
  }

  lemma {:induction false} RunKeeps(e: Engine, actions: seq<Action>)
    requires Good(e)
    ensures Good(Run(e, actions))
  {
    if actions == [] {
    } else {
      RunKeeps(e, actions[..|actions| - 1]);
      StepKeeps(Run(e, actions[..|actions| - 1]), actions[|actions| - 1]);
    }
  }

  lemma {:induction false} FreshIsGood()
    ensures Good(FRESH)
  {
  }

  // ---------------------------------------------------------------- the promises, for every run

  /**
   An execution that resumes continues from a nonempty checkpoint whose every row was written
   by an earlier execution of the same task, on the same thread (ticker, date and graph
   signature), under the same credentials. Any other execution starts from no rows at all.
   */
  lemma {:induction false} ResumeContinuesOwnRows(actions: seq<Action>, i: nat)
    requires i < |Run(FRESH, actions).starts|
    ensures StartOk(Run(FRESH, actions).starts, i)
  {
    FreshIsGood();
    RunKeeps(FRESH, actions);
  }

  /** An earlier execution of the task, on that thread and under those credentials. */
  ghost predicate RanBefore(e: Engine, t: TaskId, thread: Thread, creds: Creds) {
    exists i :: 0 <= i < |e.starts| && e.starts[i].task == t && e.starts[i].thread == thread && e.starts[i].creds == creds
  }

  /**
   A resume is admitted only under a configuration and credentials the task has already run
   under; with a signature or a key of its own making it is refused, and no file changes.
   */
  lemma {:induction false} ResumeNeedsAnEarlierRun(actions: seq<Action>, config: Config, creds: Creds)
    requires var e := Run(FRESH, actions); e.worker.Busy? && e.worker.pc.Announced? && e.worker.resume
    ensures var e := Run(FRESH, actions);
            var e' := Work(e, Admit(config, creds));
            && e'.files == e.files && e'.worker.Busy?
            && (e'.worker.pc.Admitted? || e'.worker.pc.Raised?)
            && (e'.worker.pc.Admitted? ==>
                  config.checkpoint && RanBefore(e, e.worker.task, ShapeOf(e.worker.params, config).thread, creds))
  {
    FreshIsGood();
    RunKeeps(FRESH, actions);
    var e := Run(FRESH, actions);
    var p := ShapeOf(e.worker.params, config);
    if HasCheckpoint(e.files, p) && Verifies(e.files, e.worker.task, p, creds) {
      var first := e.files.checkpoints[p.thread][0];
      assert first in e.files.checkpoints[p.thread];
      assert e.starts[first.run].task == e.worker.task;
    }
  }

  // ---------------------------------------------------------------- the key file

  predicate Writing(e: Engine) {
    e.worker.Busy? && e.worker.pc.Minting?
  }

  /** The key file is cut short and nobody is about to complete it. */
  predicate CutShort(e: Engine) {
    e.files.key.Short? && !Writing(e)
  }

  /** How one action can touch the key file. */
  ghost predicate KeyMoves(e: Engine, e': Engine, a: Action) {
    && (CutShort(e) && !a.LoseKey? ==> CutShort(e'))
    && (CutShort(e') ==> CutShort(e) || (e.files.key.Short? && Writing(e) && (a.Crash? || a.Fault?)))
  }

  lemma {:induction false} KeyInWork(e: Engine, a: Action)
    requires e.worker.Busy?
    ensures KeyMoves(e, Work(e, a), a)
  {
  }

  lemma {:induction false} KeyInLife(e: Engine, a: Action)
    ensures KeyMoves(e, Life(e, a), a)
  {
  }

  lemma {:induction false} KeyStep(e: Engine, a: Action)
    ensures KeyMoves(e, Step(e, a), a)
  {
    if IsRequest(a) {
      RequestStartsNothing(e, a);
    } else if a.Boot? || a.Exit? || a.Crash? || a.LoseKey? || a.LoseTag? || a.Claim? {
      KeyInLife(e, a);
    } else if e.worker.Busy? {
      KeyInWork(e, a);
    }
  }

  /** Once the key file is cut short it stays so until it is removed. */
  lemma {:induction false} CutShortStays(actions: seq<Action>, more: seq<Action>)
    requires CutShort(Run(FRESH, actions)) && forall i :: 0 <= i < |more| ==> !more[i].LoseKey?
    ensures CutShort(Run(Run(FRESH, actions), more))
    decreases |more|
  {
    if more == [] {
    } else {
      var front := more[..|more| - 1];
      CutShortStays(actions, front);
      KeyStep(Run(Run(FRESH, actions), front), more[|more| - 1]);
    }
  }

  /** So from then on binding a fresh checkpointed run fails the task, and nothing else gets it past that point. */
  lemma {:induction false} CutShortRefuses(actions: seq<Action>, more: seq<Action>, a: Action)
    requires CutShort(Run(FRESH, actions)) && forall i :: 0 <= i < |more| ==> !more[i].LoseKey?
    ensures var e := Run(Run(FRESH, actions), more);
            e.worker.Busy? && e.worker.pc.Cleared? ==>
              var after := Step(e, a).worker;
              (a.Bind? ==> after.Busy? && after.pc.Raised?) && !(after.Busy? && (after.pc.Admitted? || after.pc.Minting?))
  {
    CutShortStays(actions, more);
    var e := Run(Run(FRESH, actions), more);
    if IsRequest(a) {
      RequestStartsNothing(e, a);
    }
  }

  /** At step `i` a crash or an error interrupted the worker between creating and writing the key file. */
  ghost predicate CutAt(actions: seq<Action>, i: nat) {
    && i < |actions| && (actions[i].Crash? || actions[i].Fault?)
    && Run(FRESH, actions[..i]).files.key.Short? && Writing(Run(FRESH, actions[..i]))
  }

  /** Only that cuts a key file short. */
  lemma {:induction false} CutShortNeedsACut(actions: seq<Action>)
    requires CutShort(Run(FRESH, actions))
    ensures exists i: nat :: CutAt(actions, i)
    decreases |actions|
  {
    if actions == [] {
    } else {
      var n := |actions| - 1;
      KeyStep(Run(FRESH, actions[..n]), actions[n]);
      if CutShort(Run(FRESH, actions[..n])) {
        CutShortNeedsACut(actions[..n]);
        var i: nat :| CutAt(actions[..n], i);
        assert actions[..n][..i] == actions[..i];
        assert CutAt(actions, i);
      } else {
        assert CutAt(actions, n);
      }
    }
  }

  lemma {:induction false} RunMore(e: Engine, actions: seq<Action>, a: Action)
    ensures Run(e, actions + [a]) == Step(Run(e, actions), a)
  {
    assert (actions + [a])[..|actions|] == actions;
  }

  lemma {:induction false} BootsFresh()
    ensures Step(FRESH, Boot([])) == FRESH.(worker := Idle)
  {
    var none: map<TaskId, Task> := map[];
    var marked := map u | u in none :: if none[u].status.Running? then none[u].(status := Interrupted) else none[u];
    assert marked == none;
    assert InterruptRunning(FRESH.db, []) == FRESH.db;
    assert ListsRunning(FRESH.db, []);
  }

  lemma {:induction false} ClaimsTheOnly(e: Engine, id: TaskId)
    requires e.worker.Idle? && e.db.tasks.Keys == {id} && e.db.tasks[id].status.Queued?
    ensures var e' := Step(e, Action.Claim(Some(id)));
            && id in e'.db.tasks && e'.files == e.files
            && e'.worker == Busy(id, e.db.tasks[id].params, e.db.tasks[id].resumeRequested, Claiming)
  {
    assert forall u :: u in e.db.tasks ==> u in e.db.tasks.Keys;
    assert Heads(e.db.tasks, id);
    assert !AnyRunning(e.db);
  }

  lemma {:induction false} Announces(e: Engine)
    requires e.worker.Busy? && e.worker.pc.Claiming? && e.worker.task in e.db.tasks
    ensures var e' := Step(e, Announce);
            e'.worker == e.worker.(pc := Announced) && e'.files == e.files
  {
  }

  lemma {:induction false} ClearsTheThread(e: Engine)
    requires e.worker.Busy? && e.worker.pc.Announced? && !e.worker.resume && e.files == FRESH.files
    ensures var e' := Step(e, Admit(Config("", true), map[]));
            e'.worker.Busy? && e'.worker.pc.Cleared? && e'.files == e.files
  {
  }

  lemma {:induction false} OpensTheKey(e: Engine)
    requires e.worker.Busy? && e.worker.pc.Cleared? && e.files.key.Absent?
    ensures CutShort(Step(Step(e, OpenKey), Crash))
  {
    assert Step(e, OpenKey).files.key.Short?;
  }

  /** And it happens: the first checkpointed run, crashed at that moment. */
  lemma {:induction false} KeyCanBeCutShort() returns (actions: seq<Action>)
    ensures CutShort(Run(FRESH, actions))
  {
    var create := Create("id", Params(None, "T", "D"), 0);
    var booted := FRESH.(worker := Idle);
    var created := Step(booted, create);
    BootsFresh();
    assert created.db.tasks.Keys == {"id"};
    var claimed := Step(created, Action.Claim(Some("id")));
    ClaimsTheOnly(created, "id");
    actions := [Boot([])];
    RunMore(FRESH, [], Boot([]));
    assert [] + [Boot([])] == actions;
    actions := ThenRuns(booted, actions, create);
    actions := ThenRuns(created, actions, Action.Claim(Some("id")));
    actions := ThenRuns(claimed, actions, Announce);
    var announced := Step(claimed, Announce);
    Announces(claimed);
    ClearsTheThread(announced);
    actions := ThenRuns(announced, actions, Admit(Config("", true), map[]));
    var cleared := Step(announced, Admit(Config("", true), map[]));
    actions := ThenRuns(cleared, actions, OpenKey);
    actions := ThenRuns(Step(cleared, OpenKey), actions, Crash);
    OpensTheKey(cleared);
  }

  lemma {:induction false} ThenRuns(e: Engine, actions: seq<Action>, a: Action) returns (more: seq<Action>)
    requires Run(FRESH, actions) == e
    ensures Run(FRESH, more) == Step(e, a)
  {
    more := actions + [a];
    RunMore(FRESH, actions, a);
  }

  /** Of one task's executions only the first can be fresh. */
  lemma {:induction false} StartsFreshAtMostOnce(actions: seq<Action>)
    ensures FreshOnce(Run(FRESH, actions).starts)
  {
    FreshIsGood();
    RunKeeps(FRESH, actions);
  }

  /** At most one task runs; it is the worker's; no exception ever ends the worker thread. */
  lemma {:induction false} WorkerSurvives(actions: seq<Action>)
    ensures var e := Run(FRESH, actions);
            && !e.worker.Died?
            && AtMostOneRuns(e.db.tasks)
            && (e.worker.Idle? ==> !AnyRunning(e.db))
            && (e.worker.Busy? ==> e.worker.task in e.db.tasks && e.db.tasks[e.worker.task].status.Running?)
  {
    ConsistentMeans(Run(FRESH, actions).db);
    FreshIsGood();
    RunKeeps(FRESH, actions);
  }

  /** Every stored task's events spell a legal life that agrees with its status. */
  lemma {:induction false} LivesAreLegal(actions: seq<Action>, t: TaskId)
    requires t in Run(FRESH, actions).db.tasks
    ensures var db := Run(FRESH, actions).db;
            var kinds := Trace(db.events, t);
            && LifeCycle(Milestones(kinds))
            && Lives(db, t)
            && (forall i :: 0 <= i < |kinds| && kinds[i].SectionEvent? ==>
                 exists j :: 0 <= j < i && kinds[j].RunningEvent? && forall k :: j < k < i ==> kinds[k].SectionEvent?)
  {
    FreshIsGood();
    RunKeeps(FRESH, actions);
    var db := Run(FRESH, actions).db;
    ConsistentMeans(db);
    assert Lives(db, t);
    var kinds := Trace(db.events, t);
    LegalLife(kinds);
    forall i | 0 <= i < |kinds| && kinds[i].SectionEvent?
      ensures exists j :: 0 <= j < i && kinds[j].RunningEvent? && forall k :: j < k < i ==> kinds[k].SectionEvent?
    {
      SectionsInsideRuns(kinds, i);
    }
  }

  predicate Ended(task: Task) {
    task.status.Completed? || task.status.Failed?
  }

  /** Completed and failed are absorbing: until it is deleted the row never changes again. */
  lemma {:induction false} EndedForever(e: Engine, actions: seq<Action>, t: TaskId)
    requires Good(e) && t in e.db.tasks && Ended(e.db.tasks[t])
    ensures t in e.used
    ensures var e' := Run(e, actions);
            && Good(e') && t in e'.used
            && (t in e'.db.tasks ==> e'.db.tasks[t] == e.db.tasks[t])
  {
    if actions == [] {
    } else {
      var front := actions[..|actions| - 1];
      EndedForever(e, front, t);
      StepKeeps(Run(e, front), actions[|actions| - 1]);
      StepLeavesEnded(Run(e, front), actions[|actions| - 1], t);
    }
  }

  lemma {:induction false} WorkAside(e: Engine, a: Action)
    requires e.worker.Busy?
    ensures Work(e, a).db.settings == e.db.settings && Work(e, a).used == e.used
  {
  }

  /** The worker thread only ever writes its own task's row. */
  lemma {:induction false} WorkMovesOwnRow(e: Engine, a: Action)
    requires e.worker.Busy? && e.worker.task in e.db.tasks
    ensures var (db, db', t) := (e.db, Work(e, a).db, e.worker.task);
            && db'.settings == db.settings
            && Work(e, a).used == e.used
            && t in db'.tasks && db'.tasks == db.tasks[t := db'.tasks[t]]
            && db'.tasks[t].params == db.tasks[t].params
  {
    WorkAside(e, a);
    WorkMovesTasks(e, a);
  }

  lemma {:induction false} WorkMovesTasks(e: Engine, a: Action)
    requires e.worker.Busy? && e.worker.task in e.db.tasks
    ensures var (tasks, tasks', t) := (e.db.tasks, Work(e, a).db.tasks, e.worker.task);
            t in tasks' && tasks' == tasks[t := tasks'[t]] && tasks'[t].params == tasks[t].params
  {
    var t := e.worker.task;
    assert e.db.tasks == e.db.tasks[t := e.db.tasks[t]];
  }

  lemma {:induction false} StepLeavesEnded(e: Engine, a: Action, t: TaskId)
    requires Good(e) && t in e.used
    requires t in e.db.tasks ==> Ended(e.db.tasks[t])
    ensures t in Step(e, a).used
    ensures t in Step(e, a).db.tasks ==> t in e.db.tasks && Step(e, a).db.tasks[t] == e.db.tasks[t]
  {
    if IsRequest(a) {
      RequestOnEnded(e, a, t);
    } else if a.Boot? {
      if Life(e, a) != e { InterruptKeeps(e.db, a.ids); }
    } else if !(a.Exit? || a.Crash? || a.LoseKey? || a.LoseTag? || a.Claim?) && e.worker.Busy? {
      WorkMovesOwnRow(e, a);
    }
  }

  lemma {:induction false} RequestOnEnded(e: Engine, a: Action, t: TaskId)
    requires IsRequest(a) && t in e.used
    requires t in e.db.tasks ==> Ended(e.db.tasks[t])
    ensures t in Request(e, a).used
    ensures t in Request(e, a).db.tasks ==> t in e.db.tasks && Request(e, a).db.tasks[t] == e.db.tasks[t]
  {
    if e.db.settings.joined.Some? && !(a.Create? || a.Rerun? || a.Resume? || a.Delete?) {
      RegistryAside(e, a);
    }
  }

  /** A completed task keeps, for good, a nonempty decision equal to its saved decision section. */
  lemma {:induction false} CompletedKeepsDecision(e: Engine, actions: seq<Action>, t: TaskId)
    requires Good(e) && t in e.db.tasks && e.db.tasks[t].status.Completed? && t in Run(e, actions).db.tasks
    ensures var task := Run(e, actions).db.tasks[t];
            task == e.db.tasks[t] && task.decision.Some? && DecisionSaved(task, task.decision.value)
  {
    ConsistentMeans(e.db);
    EndedForever(e, actions, t);
  }

  // ---------------------------------------------------------------- the provider registry, for every run

  lemma {:induction false} RegistryStep(e: Engine, a: Action)
    requires Good(e) && P.Sound(e.db)
    ensures P.Sound(Step(e, a).db)
  {
    if IsRequest(a) {
      RegistryRequest(e, a);
    } else if a.Boot? {
      if Life(e, a) != e {
        InterruptKeeps(e.db, a.ids);
        P.TasksKeep(e.db, Life(e, a).db);
      }
    } else if a.Exit? || a.Crash? || a.LoseKey? || a.LoseTag? || a.Claim? {
      P.TasksKeep(e.db, Life(e, a).db);
    } else if e.worker.Busy? {
      WorkMovesOwnRow(e, a);
      P.TasksKeep(e.db, Work(e, a).db);
    }
  }

  lemma {:induction false} RegistryRequest(e: Engine, a: Action)
    requires P.Sound(e.db) && IsRequest(a)
    ensures P.Sound(Request(e, a).db)
  {
    match a {
      case AddBuiltIn(id, key) => if P.AddBuiltIn(e.db.settings, id, key).Ok? { P.AddBuiltInKeeps(e.db, id, key); }
      case AddCustom(id, name, url, key) =>
        if !P.Listed(e.db.settings.joined.value, id) && id != "" && P.AddCustom(e.db.settings, id, name, url, key).Ok? {
          P.AddCustomKeeps(e.db, id, name, url, key);
        }
      case EditProvider(id, name, url, key, clear) =>
        if P.Edit(e.db.settings, id, name, url, key, clear).Ok? { P.EditKeeps(e.db, id, name, url, key, clear); }
      case RemoveProvider(id) => if P.Remove(e.db, id).Ok? { P.RemoveKeeps(e.db, id); }
      case UpdateSettings(change, read) =>
        if P.Update(e.db.settings, change, read).Ok? { P.UpdateKeeps(e.db, change, read); }
      case _ => P.TasksKeep(e.db, Request(e, a).db);
    }
  }

  /**
   Once the joined list is persisted and sound, it stays sound in every interleaving: the
   default provider and each unfinished task's provider are joined, ids and names unique.
   */
  lemma {:induction false} RegistryStaysSound(e: Engine, actions: seq<Action>)
    requires Good(e) && P.Sound(e.db)
    ensures P.Sound(Run(e, actions).db)
  {
    if actions == [] {
    } else {
      var front := actions[..|actions| - 1];
      RegistryStaysSound(e, front);
      RunKeeps(e, front);
      RegistryStep(Run(e, front), actions[|actions| - 1]);
    }
  }
}
