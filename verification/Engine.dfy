/**
 The research engine: one worker thread (web/worker.py) running the graph through
 `GraphRunner` (web/runner.py) over shared checkpoint threads (trading_graph.py,
 checkpointer.py), against the transactions of `TaskStore` and `Providers`.

 An `Action` is one atomic step of some actor: an HTTP request, the worker thread between
 two transactions or file writes, a process crash, a restart, or the loss of a private file.
 A run is any sequence of actions. SHA-256 and HMAC are injective, so a thread id is the
 triple it digests and a tag is the payload it authenticates together with its key.
 `starts` and `used` are history: every graph execution begun, every task id ever created.
 */
module Engine {
  import opened Wrappers
  import opened TaskStore
  import P = Providers

  type Creds = map<string, string>

  /** What a run's configuration decides; it is resolved anew for every run. */
  datatype Config = Config(signature: string, checkpoint: bool)

  /** A run's checkpoint thread, and whether it keeps checkpoints at all. */
  datatype Shape = Shape(thread: Thread, checkpoint: bool)

  /** Task tickers are normalised when the task is created, so upper-casing them for the thread changes nothing. */
  function ShapeOf(params: Params, config: Config): Shape {
    Shape(Thread(params.ticker, params.date, config.signature), config.checkpoint)
  }

  datatype Tag = Tag(key: nat, task: TaskId, thread: Thread, creds: Creds)

  /** One checkpoint row: the execution (index into `starts`) that wrote it, and its data. */
  datatype Write = Write(run: nat, data: int)

  /** A graph execution as it begins, with the checkpoint rows it continues from. */
  datatype Start = Start(task: TaskId, thread: Thread, creds: Creds, resume: bool, base: seq<Write>)

  /** The private key file: created first, its bytes written after. A key cut short is as good as none. */
  datatype KeyFile = Absent | Short | Full(secret: nat)

  datatype Files = Files(key: KeyFile, tags: map<Thread, Tag>, checkpoints: map<Thread, seq<Write>>)

  datatype Pc =
    | Claiming
    | Announced
    | Cleared(shape: Shape, creds: Creds)
    | Minting(shape: Shape, creds: Creds)
    | Admitted(shape: Shape, creds: Creds)
    | Streaming(run: nat, shape: Shape, unlogged: Option<(string, string)>)
    | Returned(rating: string)
    | Decided(rating: string, decision: string)
    | Raised

  datatype Worker =
    | Down
    | Idle
    | Busy(task: TaskId, params: Params, resume: bool, pc: Pc)
    | Died

  datatype Engine = Engine(db: Db, files: Files, worker: Worker, starts: seq<Start>, used: set<TaskId>)

  datatype Action =
    // HTTP requests
    | Create(id: TaskId, params: Params, now: int)
    | Rerun(source: TaskId, id: TaskId, now: int)
    | Resume(id: TaskId)
    | Delete(id: TaskId)
    | AddBuiltIn(provider: string, key: Option<string>)
    | AddCustom(provider: string, name: string, url: string, key: Option<string>)
    | EditProvider(provider: string, rename: Option<string>, link: Option<string>, key: Option<string>, clear: bool)
    | RemoveProvider(provider: string)
    | UpdateSettings(change: P.Change, read: string)
    // process life
    | Boot(ids: seq<TaskId>)
    | Exit
    | Crash
    | LoseKey
    | LoseTag(thread: Thread)
    // the worker thread
    | Claim(next: Option<TaskId>)
    | Announce
    | Admit(config: Config, creds: Creds)
    | OpenKey
    | Mint(secret: nat)
    | Bind
    | Begin
    | Checkpoint(data: int)
    | Emit(section: string, text: string)
    | LogEmit
    | Succeed(rating: string)
    | ReadDecision
    | Conclude
    | Fault

  // ---------------------------------------------------------------- the runner's files

  function HasCheckpoint(f: Files, p: Shape): bool {
    p.checkpoint && p.thread in f.checkpoints
  }

  /** `_credential_binding(create=False)`: the stored tag is the one this key would write now. */
  predicate Verifies(f: Files, t: TaskId, p: Shape, creds: Creds) {
    f.key.Full? && p.thread in f.tags && f.tags[p.thread] == Tag(f.key.secret, t, p.thread, creds)
  }

  function ClearCheckpoint(f: Files, thread: Thread): Files {
    f.(checkpoints := f.checkpoints - {thread})
  }

  function BindTag(f: Files, t: TaskId, p: Shape, creds: Creds): Files
    requires f.key.Full?
  {
    f.(tags := f.tags[p.thread := Tag(f.key.secret, t, p.thread, creds)])
  }

  function Saved(f: Files, thread: Thread): seq<Write> {
    if thread in f.checkpoints then f.checkpoints[thread] else []
  }

  // ---------------------------------------------------------------- steps

  function WithDb(e: Engine, r: Result<Db>): Engine {
    if r.Ok? then e.(db := r.value) else e
  }

  function WithSettings(e: Engine, r: Result<Settings>): Engine {
    if r.Ok? then e.(db := e.db.(settings := r.value)) else e
  }

  function CreateIn(e: Engine, id: TaskId, params: Params, now: int): Engine {
    var r := CreateTask(e.db, id, params, now);
    if id in e.used || r.Err? then e else e.(db := r.value, used := e.used + {id})
  }

  /** The HTTP and settings requests. A resume's checkpoint probe is only a hint and is not a guard here. */
  function Request(e: Engine, a: Action): Engine {
    match a
    case Create(id, params, now) => CreateIn(e, id, params, now)
    case Rerun(source, id, now) =>
      if source in e.db.tasks then CreateIn(e, id, e.db.tasks[source].params, now) else e
    case Resume(id) => WithDb(e, Requeue(e.db, id))
    case Delete(id) => WithDb(e, DeleteTask(e.db, id))
    case _ => if e.db.settings.joined.None? then e else Registry(e, a)
  }

  function Registry(e: Engine, a: Action): Engine
    requires e.db.settings.joined.Some?
  {
    match a
    case AddBuiltIn(id, key) => WithSettings(e, P.AddBuiltIn(e.db.settings, id, key))
    case AddCustom(id, name, url, key) =>
      var clash := P.Listed(e.db.settings.joined.value, id) || id == "";
      if clash then e else WithSettings(e, P.AddCustom(e.db.settings, id, name, url, key))
    case EditProvider(id, name, url, key, clear) => WithSettings(e, P.Edit(e.db.settings, id, name, url, key, clear))
    case RemoveProvider(id) => WithDb(e, P.Remove(e.db, id))
    case UpdateSettings(change, read) => WithSettings(e, P.Update(e.db.settings, change, read))
    case _ => e
  }

  predicate IsRequest(a: Action) {
    a.Create? || a.Rerun? || a.Resume? || a.Delete? || a.AddBuiltIn? || a.AddCustom? ||
    a.EditProvider? || a.RemoveProvider? || a.UpdateSettings?
  }

  /** Process life: only startup recovery interrupts, and only when no worker thread is alive. */
  ghost function Life(e: Engine, a: Action): Engine {
    match a
    case Boot(ids) =>
      if (e.worker.Down? || e.worker.Died?) && ListsRunning(e.db, ids)
      then e.(db := InterruptRunning(e.db, ids), worker := Idle) else e
    case Exit => if e.worker.Idle? then e.(worker := Down) else e
    case Crash => e.(worker := Down)
    case LoseKey => e.(files := e.files.(key := Absent))
    case LoseTag(thread) => e.(files := e.files.(tags := e.files.tags - {thread}))
    case Claim(next) =>
      if !e.worker.Idle? || next.None? then e
      else if !AnyRunning(e.db) && Heads(e.db.tasks, next.value) then
        var t := next.value;
        e.(db := TaskStore.Claim(e.db, t),
           worker := Busy(t, e.db.tasks[t].params, e.db.tasks[t].resumeRequested, Claiming))
      else e
    case _ => e
  }

  /** `_execute` and `GraphRunner.run`, one transaction or file operation at a time. */
  function Work(e: Engine, a: Action): Engine
    requires e.worker.Busy?
  {
    var w := e.worker;
    match (w.pc, a)
    case (Claiming, Announce) =>
      match AppendEvent(e.db, w.task, RunningEvent) {
        case Ok(db) => e.(db := db, worker := w.(pc := Announced))
        case Err(_) => e.(worker := w.(pc := Raised))
      }
    case (Announced, Admit(config, creds)) =>
      var p := ShapeOf(w.params, config);
      if w.resume then
        if HasCheckpoint(e.files, p) && Verifies(e.files, w.task, p, creds)
        then e.(worker := w.(pc := Admitted(p, creds)))
        else e.(worker := w.(pc := Raised))
      else
        var files := if HasCheckpoint(e.files, p) then ClearCheckpoint(e.files, p.thread) else e.files;
        e.(files := files, worker := w.(pc := if p.checkpoint then Cleared(p, creds) else Admitted(p, creds)))
    case (Cleared(p, creds), OpenKey) =>
      if e.files.key.Absent? then e.(files := e.files.(key := Short), worker := w.(pc := Minting(p, creds))) else e
    case (Minting(p, creds), Mint(secret)) =>
      // The file may have been lost meanwhile; what is written then is lost with it.
      e.(files := e.files.(key := if e.files.key.Absent? then Absent else Full(secret)), worker := w.(pc := Cleared(p, creds)))
    case (Cleared(p, creds), Bind) =>
      match e.files.key {
        case Absent => e
        case Short => e.(worker := w.(pc := Raised))
        case Full(_) => e.(files := BindTag(e.files, w.task, p, creds), worker := w.(pc := Admitted(p, creds)))
      }
    case (Admitted(p, creds), Begin) =>
      // begin_checkpoint decides "resuming" from the thread's rows alone, never from the task's flag.
      var base := if p.checkpoint then Saved(e.files, p.thread) else [];
      e.(starts := e.starts + [Start(w.task, p.thread, creds, w.resume, base)],
         worker := w.(pc := Streaming(|e.starts|, p, None)))
    case (Streaming(run, p, _), Checkpoint(data)) =>
      if !p.checkpoint then e
      else e.(files := e.files.(checkpoints := e.files.checkpoints[p.thread := Saved(e.files, p.thread) + [Write(run, data)]]))
    case (Streaming(run, p, None), Emit(section, text)) =>
      match SaveSection(e.db, w.task, section, text) {
        case Ok(db) => e.(db := db, worker := w.(pc := Streaming(run, p, Some((section, text)))))
        case Err(_) => e.(worker := w.(pc := Raised))
      }
    case (Streaming(run, p, Some(s)), LogEmit) =>
      match AppendEvent(e.db, w.task, SectionEvent(s.0, s.1)) {
        case Ok(db) => e.(db := db, worker := w.(pc := Streaming(run, p, None)))
        case Err(_) => e.(worker := w.(pc := Raised))
      }
    case (Streaming(run, p, None), Succeed(rating)) =>
      e.(files := if p.checkpoint then ClearCheckpoint(e.files, p.thread) else e.files,
         worker := w.(pc := Returned(rating)))
    case (Returned(rating), ReadDecision) =>
      if w.task !in e.db.tasks then e.(worker := w.(pc := Raised))
      else
        var sections := e.db.tasks[w.task].sections;
        e.(worker := w.(pc := Decided(rating, if "decision" in sections then sections["decision"] else "")))
    case (Decided(rating, decision), Conclude) =>
      match Finish(e.db, w.task, rating, decision) {
        case Ok(db) => e.(db := db, worker := Idle)
        case Err(_) => e.(worker := w.(pc := Raised))
      }
    case (Raised, Conclude) =>
      // An exception out of store.fail would end the worker thread.
      match Fail(e.db, w.task, "Analysis failed; partial reports were preserved") {
        case Ok(db) => e.(db := db, worker := Idle)
        case Err(_) => e.(worker := Died)
      }
    case (pc, Fault) => if pc.Claiming? then e else e.(worker := w.(pc := Raised))
    case _ => e
  }

  ghost function Step(e: Engine, a: Action): Engine {
    if IsRequest(a) then Request(e, a)
    else if a.Boot? || a.Exit? || a.Crash? || a.LoseKey? || a.LoseTag? || a.Claim? then Life(e, a)
    else if e.worker.Busy? then Work(e, a)
    else e
  }

  ghost function Run(e: Engine, actions: seq<Action>): Engine {
    if actions == [] then e else Step(Run(e, actions[..|actions| - 1]), actions[|actions| - 1])
  }

  const FRESH := Engine(
    Db(map[], [], 0, 0, Settings(None, None, map[], map[])),
    Files(Absent, map[], map[]), Down, [], {})

  // ---------------------------------------------------------------- what every step keeps

  /** Every row of a thread was written by an execution on that thread, and agrees with a tag that is there. */
  ghost predicate RowsBound(e: Engine) {
    forall thread :: thread in e.files.checkpoints ==>
      && e.files.checkpoints[thread] != []
      && (forall w :: w in e.files.checkpoints[thread] ==>
           && w.run < |e.starts|
           && e.starts[w.run].thread == thread
           && (thread in e.files.tags ==>
                e.files.tags[thread].task == e.starts[w.run].task && e.files.tags[thread].creds == e.starts[w.run].creds))
  }

  /** While (t, creds) executes on its thread, all rows there are its own, and so is any tag. */
  ghost predicate Holds(e: Engine, t: TaskId, thread: Thread, creds: Creds) {
    && (thread in e.files.tags ==> e.files.tags[thread].task == t && e.files.tags[thread].creds == creds)
    && (forall w :: w in Saved(e.files, thread) && w.run < |e.starts| ==>
         e.starts[w.run].task == t && e.starts[w.run].creds == creds)
  }

  ghost predicate Begun(e: Engine, t: TaskId) {
    exists i :: 0 <= i < |e.starts| && e.starts[i].task == t
  }

  ghost predicate WorkerOk(e: Engine) {
    match e.worker
    case Down => true
    case Idle => !AnyRunning(e.db)
    case Died => false
    case Busy(t, p, resume, pc) =>
      && t in e.db.tasks
      && e.db.tasks[t].status.Running?
      && e.db.tasks[t].params == p
      && e.db.tasks[t].resumeRequested == resume
      && PhaseOf(Trace(e.db.events, t)) == Some(Open(!pc.Claiming?))
      && PcOk(e, t, resume, pc)
  }

  ghost predicate PcOk(e: Engine, t: TaskId, resume: bool, pc: Pc) {
    match pc
    case Claiming => !resume ==> !Begun(e, t)
    case Announced => !resume ==> !Begun(e, t)
    case Cleared(p, _) => !resume && p.checkpoint && p.thread !in e.files.checkpoints && !Begun(e, t)
    case Minting(p, _) => !resume && p.checkpoint && p.thread !in e.files.checkpoints && !Begun(e, t)
    case Admitted(p, creds) =>
      && (resume ==> p.checkpoint && p.thread in e.files.checkpoints)
      && (!resume ==> !Begun(e, t) && (p.checkpoint ==> p.thread !in e.files.checkpoints))
      && (p.checkpoint ==> Holds(e, t, p.thread, creds))
    case Streaming(run, p, _) =>
      && run < |e.starts|
      && e.starts[run].task == t
      && e.starts[run].thread == p.thread
      && (p.checkpoint ==> Holds(e, t, p.thread, e.starts[run].creds))
    case _ => true
  }

  /** A resumed execution continues only its own task's rows; any other begins with none. */
  ghost predicate StartOk(starts: seq<Start>, i: nat)
    requires i < |starts|
  {
    var s := starts[i];
    if s.resume then
      && s.base != []
      && forall w :: w in s.base ==>
           && w.run < i
           && starts[w.run].task == s.task
           && starts[w.run].thread == s.thread
           && starts[w.run].creds == s.creds
    else s.base == []
  }

  ghost predicate FreshOnce(starts: seq<Start>) {
    forall i, j :: 0 <= i < j < |starts| && starts[i].task == starts[j].task ==> starts[j].resume
  }

  ghost predicate HistoryOk(e: Engine) {
    && (forall i :: 0 <= i < |e.starts| ==> StartOk(e.starts, i) && e.starts[i].task in e.used)
    && FreshOnce(e.starts)
    && (forall t :: t in e.db.tasks ==> t in e.used)
    && (forall t :: t in e.db.tasks && e.db.tasks[t].status.Queued? && !e.db.tasks[t].resumeRequested ==> !Begun(e, t))
  }

  ghost predicate Good(e: Engine) {
    && Consistent(e.db)
    && RowsBound(e)
    && WorkerOk(e)
    && HistoryOk(e)
  }
}
