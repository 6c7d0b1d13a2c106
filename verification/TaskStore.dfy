/**
 The durable task, event and section tables of the research worker (web/store.py).

 `Db` is one committed state of the tables; every `BEGIN IMMEDIATE` block is one function
 from `Db` to `Db`. Class `Store` performs the same blocks on mutable tables and is proved
 against those functions. `Consistent` is what every block keeps: each task's events spell
 out a legal life, and that life agrees with its status column.
 */
module TaskStore {
  import opened Wrappers

  type TaskId = string

  datatype Status = Queued | Running | Completed | Failed | Interrupted

  datatype Kind =
    | QueuedEvent
    | RunningEvent
    | SectionEvent(section: string, text: string)
    | CompletedEvent(rating: string)
    | FailedEvent(error: string)
    | InterruptedEvent

  datatype Event = Event(id: nat, task: TaskId, kind: Kind)

  /** What a checkpoint thread id is the digest of: ticker, date and graph signature. */
  datatype Thread = Thread(ticker: string, date: string, signature: string)

  datatype Params = Params(provider: Option<string>, ticker: string, date: string)

  datatype Task = Task(
    params: Params,
    status: Status,
    sections: map<string, string>,
    rating: Option<string>,
    decision: Option<string>,
    error: Option<string>,
    resumeRequested: bool,
    createdAt: int,
    rowid: nat)

  datatype Provider = Provider(id: string, name: string, custom: bool, baseUrl: Option<string>)

  /** The settings rows. `joined` is absent until a provider list has first been written. */
  datatype Settings = Settings(
    joined: Option<seq<Provider>>,
    provider: Option<string>,
    keys: map<string, string>,
    models: map<string, string>)

  /** `lastId` is the AUTOINCREMENT counter: it survives deletions, so ids are never reused. */
  datatype Db = Db(
    tasks: map<TaskId, Task>,
    events: seq<Event>,
    lastId: nat,
    lastRow: nat,
    settings: Settings)

  const RATINGS := {"Buy", "Overweight", "Hold", "Underweight", "Sell", "REVIEW"}

  // ---------------------------------------------------------------- transactions

  function Log(db: Db, t: TaskId, kind: Kind): Db {
    db.(events := db.events + [Event(db.lastId + 1, t, kind)], lastId := db.lastId + 1)
  }

  function Put(db: Db, t: TaskId, task: Task): Db {
    db.(tasks := db.tasks[t := task])
  }

  predicate Joins(settings: Settings, provider: Option<string>) {
    settings.joined.Some? && provider.Some? ==>
      exists i :: 0 <= i < |settings.joined.value| && settings.joined.value[i].id == provider.value
  }

  /** A fresh id is the caller's uuid4; a clash with the primary key is refused. */
  function CreateTask(db: Db, t: TaskId, params: Params, now: int): Result<Db> {
    if !Joins(db.settings, params.provider) then Err("provider must be joined")
    else if t in db.tasks then Err("integrity")
    else
      var task := Task(params, Queued, map[], None, None, None, false, now, db.lastRow + 1);
      Ok(Put(db, t, task).(lastRow := db.lastRow + 1))
  }

  ghost predicate AnyRunning(db: Db) {
    exists t :: t in db.tasks && db.tasks[t].status.Running?
  }

  predicate Before(a: Task, b: Task) {
    a.createdAt < b.createdAt || (a.createdAt == b.createdAt && a.rowid <= b.rowid)
  }

  /** `t` heads the queue: first by creation time, then by row. */
  ghost predicate Heads(tasks: map<TaskId, Task>, t: TaskId) {
    && t in tasks
    && tasks[t].status.Queued?
    && forall u :: u in tasks && tasks[u].status.Queued? ==> Before(tasks[t], tasks[u])
  }

  /** What `claim_next` may return, and the tables it leaves. */
  ghost predicate Claimed(db: Db, r: Option<TaskId>, db': Db) {
    match r
    case None => db' == db && (AnyRunning(db) || forall t :: t in db.tasks ==> !db.tasks[t].status.Queued?)
    case Some(t) => !AnyRunning(db) && Heads(db.tasks, t) && db' == Claim(db, t)
  }

  function Claim(db: Db, t: TaskId): Db
    requires t in db.tasks
  {
    Put(db, t, db.tasks[t].(status := Running))
  }

  function AppendEvent(db: Db, t: TaskId, kind: Kind): Result<Db> {
    if t !in db.tasks then Err("integrity") else Ok(Log(db, t, kind))
  }

  function SaveSection(db: Db, t: TaskId, section: string, text: string): Result<Db> {
    if t !in db.tasks then Err("integrity")
    else Ok(Put(db, t, db.tasks[t].(sections := db.tasks[t].sections[section := text])))
  }

  predicate DecisionSaved(task: Task, decision: string) {
    "decision" in task.sections && task.sections["decision"] == decision && decision != ""
  }

  function Finish(db: Db, t: TaskId, rating: string, decision: string): Result<Db> {
    if rating !in RATINGS then Err("invalid rating")
    else if t !in db.tasks || !DecisionSaved(db.tasks[t], decision) then
      Err("saved decision must match final decision")
    else if !db.tasks[t].status.Running? then Err("only running tasks can finish")
    else
      var done := db.tasks[t].(status := Completed, rating := Some(rating), decision := Some(decision), error := None);
      Ok(Log(Put(db, t, done), t, CompletedEvent(rating)))
  }

  function Fail(db: Db, t: TaskId, error: string): Result<Db> {
    if t !in db.tasks || !db.tasks[t].status.Running? then Err("only running tasks can fail")
    else
      var failed := db.tasks[t].(status := Failed, error := Some(error), rating := None);
      Ok(Log(Put(db, t, failed), t, FailedEvent(error)))
  }

  function Requeue(db: Db, t: TaskId): Result<Db> {
    if t !in db.tasks || !db.tasks[t].status.Interrupted? then Err("only interrupted tasks can resume")
    else
      var queued := db.tasks[t].(status := Queued, resumeRequested := true, error := None);
      Ok(Log(Put(db, t, queued), t, QueuedEvent))
  }

  /** The rows `SELECT id ... WHERE status='running'` returns, in some order. */
  ghost predicate ListsRunning(db: Db, ids: seq<TaskId>) {
    && (forall i, j :: 0 <= i < j < |ids| ==> ids[i] != ids[j])
    && (forall t :: t in ids <==> t in db.tasks && db.tasks[t].status.Running?)
  }

  function InterruptRunning(db: Db, ids: seq<TaskId>): Db {
    var stopped := map t | t in db.tasks ::
      if db.tasks[t].status.Running? then db.tasks[t].(status := Interrupted) else db.tasks[t];
    LogInterrupted(db.(tasks := stopped), ids)
  }

  function LogInterrupted(db: Db, ids: seq<TaskId>): Db
    decreases |ids|
  {
    if ids == [] then db else LogInterrupted(Log(db, ids[0], InterruptedEvent), ids[1..])
  }

  /** Deleting a task deletes its events with it; a running task stays. */
  function DeleteTask(db: Db, t: TaskId): Result<Db> {
    if t !in db.tasks || db.tasks[t].status.Running? then Err("not deleted")
    else Ok(db.(tasks := db.tasks - {t}, events := Without(db.events, t)))
  }

  function Without(events: seq<Event>, t: TaskId): seq<Event> {
    if events == [] then []
    else
      var rest := Without(events[..|events| - 1], t);
      if events[|events| - 1].task == t then rest else rest + [events[|events| - 1]]
  }

  function EventsAfter(events: seq<Event>, t: TaskId, cursor: nat): seq<Event> {
    if events == [] then []
    else
      var rest := EventsAfter(events[..|events| - 1], t, cursor);
      var last := events[|events| - 1];
      if last.task == t && last.id > cursor then rest + [last] else rest
  }

  /** `json_extract(params, '$.provider') = ? AND status IN ('queued','running','interrupted')`. */
  predicate Unfinished(task: Task) {
    task.status.Queued? || task.status.Running? || task.status.Interrupted?
  }

  predicate HasUnfinished(db: Db, provider: string) {
    exists t :: t in db.tasks && Unfinished(db.tasks[t]) && db.tasks[t].params.provider == Some(provider)
  }

  // ---------------------------------------------------------------- a task's life

  /** Where a task's event stream stands. `Open(true)` is inside an announced run. */
  datatype Phase = Open(announced: bool) | Stopped | Done(ok: bool)

  function Advance(p: Phase, kind: Kind): Option<Phase> {
    match (p, kind)
    case (Open(false), RunningEvent) => Some(Open(true))
    case (Open(true), SectionEvent(_, _)) => Some(p)
    case (Open(_), InterruptedEvent) => Some(Stopped)
    case (Open(true), CompletedEvent(_)) => Some(Done(true))
    case (Open(true), FailedEvent(_)) => Some(Done(false))
    case (Stopped, QueuedEvent) => Some(Open(false))
    case _ => None
  }

  function PhaseOf(kinds: seq<Kind>): Option<Phase> {
    if kinds == [] then Some(Open(false))
    else
      match PhaseOf(kinds[..|kinds| - 1])
      case None => None
      case Some(p) => Advance(p, kinds[|kinds| - 1])
  }

  function Trace(events: seq<Event>, t: TaskId): seq<Kind> {
    if events == [] then []
    else
      var rest := Trace(events[..|events| - 1], t);
      var last := events[|events| - 1];
      if last.task == t then rest + [last.kind] else rest
  }

  predicate Agrees(status: Status, phase: Phase) {
    match status
    case Queued => phase == Open(false)
    case Running => phase.Open?
    case Interrupted => phase == Stopped
    case Completed => phase == Done(true)
    case Failed => phase == Done(false)
  }

  ghost predicate Lives(db: Db, t: TaskId)
    requires t in db.tasks
  {
    var phase := PhaseOf(Trace(db.events, t));
    phase.Some? && Agrees(db.tasks[t].status, phase.value)
  }

  /** A completed task keeps a nonempty decision equal to its saved section. */
  predicate DecisionKept(task: Task) {
    task.status.Completed? ==> task.decision.Some? && DecisionSaved(task, task.decision.value)
  }

  ghost predicate DecisionsKept(tasks: map<TaskId, Task>) {
    forall u :: u in tasks ==> DecisionKept(tasks[u])
  }

  predicate Ascending(events: seq<Event>, lastId: nat) {
    && (forall i :: 0 <= i < |events| ==> 0 < events[i].id <= lastId)
    && (forall i, j :: 0 <= i < j < |events| ==> events[i].id < events[j].id)
  }

  predicate Owned(events: seq<Event>, tasks: map<TaskId, Task>) {
    forall i :: 0 <= i < |events| ==> events[i].task in tasks
  }

  ghost predicate RowsDistinct(tasks: map<TaskId, Task>, lastRow: nat) {
    && (forall t :: t in tasks ==> tasks[t].rowid <= lastRow)
    && (forall t, u :: t in tasks && u in tasks && tasks[t].rowid == tasks[u].rowid ==> t == u)
  }

  ghost predicate AtMostOneRuns(tasks: map<TaskId, Task>) {
    forall t, u :: t in tasks && u in tasks && tasks[t].status.Running? && tasks[u].status.Running? ==> t == u
  }

  ghost predicate Intact(db: Db) {
    && Ascending(db.events, db.lastId)
    && Owned(db.events, db.tasks)
    && (forall t :: t in db.tasks ==> Lives(db, t))
    && DecisionsKept(db.tasks)
    && RowsDistinct(db.tasks, db.lastRow)
    && AtMostOneRuns(db.tasks)
  }

  /** What every transaction keeps. The definition is looked into only where `Unsealed` is mentioned. */
  ghost predicate Consistent(db: Db) {
    forall k: nat {:trigger Unsealed(k)} :: Unsealed(k) ==> Intact(db)
  }

  lemma {:induction false} ConsistentMeans(db: Db)
    ensures Consistent(db) <==> Intact(db)
  {
    assert Unsealed(0);
  }

  // ---------------------------------------------------------------- preservation

  lemma {:induction false} TraceOfLog(db: Db, t: TaskId, kind: Kind, u: TaskId)
    ensures Trace(Log(db, t, kind).events, u) == Trace(db.events, u) + (if u == t then [kind] else [])
  {
    assert Log(db, t, kind).events[..|db.events|] == db.events;
  }

  lemma {:induction false} PhaseOfMore(kinds: seq<Kind>, kind: Kind)
    ensures PhaseOf(kinds + [kind]) ==
            match PhaseOf(kinds) { case None => None case Some(p) => Advance(p, kind) }
  {
    assert (kinds + [kind])[..|kinds|] == kinds;
  }

  /** The one argument behind every status change: a legal event for the task's phase. */
  lemma {:induction false} ChangeKeeps(db: Db, t: TaskId, task: Task, kind: Kind)
    requires Consistent(db) && t in db.tasks && Lives(db, t)
    requires task.rowid == db.tasks[t].rowid && DecisionKept(task)
    requires task.status.Running? ==> db.tasks[t].status.Running?
    requires var next := Advance(PhaseOf(Trace(db.events, t)).value, kind);
             next.Some? && Agrees(task.status, next.value)
    ensures Consistent(Log(Put(db, t, task), t, kind))
  {
    ConsistentMeans(db);
    ChangedLives(db, t, task, kind);
    LogOfPut(db, t, task, kind);
    LogKeepsOrder(db, t, kind);
    PutKeepsRows(db, t, task);
    PutKeepsDecisions(db.tasks, t, task);
    Assembled(Log(Put(db, t, task), t, kind), db.tasks);
  }

  lemma {:induction false} Assembled(db': Db, tasks: map<TaskId, Task>)
    requires Ascending(db'.events, db'.lastId) && Owned(db'.events, tasks) && db'.tasks.Keys == tasks.Keys
    requires forall u :: u in db'.tasks ==> Lives(db', u)
    requires DecisionsKept(db'.tasks)
    requires RowsDistinct(db'.tasks, db'.lastRow) && AtMostOneRuns(db'.tasks)
    ensures Consistent(db')
  {
    OwnedStill(db'.events, tasks, db'.tasks);
    ConsistentMeans(db');
  }

  lemma {:induction false} LogOfPut(db: Db, t: TaskId, task: Task, kind: Kind)
    requires t in db.tasks
    ensures var db' := Log(Put(db, t, task), t, kind);
            && db'.events == Log(db, t, kind).events && db'.lastId == db.lastId + 1 && db'.lastRow == db.lastRow
            && db'.tasks == db.tasks[t := task] && db'.tasks.Keys == db.tasks.Keys
  {
  }

  lemma {:induction false} OwnedStill(events: seq<Event>, tasks: map<TaskId, Task>, tasks': map<TaskId, Task>)
    requires Owned(events, tasks) && tasks'.Keys == tasks.Keys
    ensures Owned(events, tasks')
  {
    forall i | 0 <= i < |events|
      ensures events[i].task in tasks'
    {
      assert events[i].task in tasks.Keys;
    }
  }

  lemma {:induction false} PutKeepsDecisions(tasks: map<TaskId, Task>, t: TaskId, task: Task)
    requires DecisionsKept(tasks) && DecisionKept(task)
    ensures DecisionsKept(tasks[t := task])
  {
  }

  lemma {:induction false} ChangedLives(db: Db, t: TaskId, task: Task, kind: Kind)
    requires t in db.tasks && Lives(db, t) && forall u :: u in db.tasks ==> Lives(db, u)
    requires var next := Advance(PhaseOf(Trace(db.events, t)).value, kind);
             next.Some? && Agrees(task.status, next.value)
    ensures var db' := Log(Put(db, t, task), t, kind);
            forall u :: u in db'.tasks ==> Lives(db', u)
  {
    var db' := Log(Put(db, t, task), t, kind);
    forall u | u in db'.tasks
      ensures Lives(db', u)
    {
      assert Lives(db, u) && Lives(db, t);
      ChangedLife(db, t, task, kind, u);
    }
  }

  lemma {:induction false} LogKeepsOrder(db: Db, t: TaskId, kind: Kind)
    requires Ascending(db.events, db.lastId) && Owned(db.events, db.tasks) && t in db.tasks
    ensures Ascending(Log(db, t, kind).events, db.lastId + 1) && Owned(Log(db, t, kind).events, db.tasks)
  {
  }

  lemma {:induction false} PutKeepsRows(db: Db, t: TaskId, task: Task)
    requires t in db.tasks && task.rowid == db.tasks[t].rowid
    requires task.status.Running? ==> db.tasks[t].status.Running?
    requires RowsDistinct(db.tasks, db.lastRow) && AtMostOneRuns(db.tasks)
    ensures RowsDistinct(db.tasks[t := task], db.lastRow) && AtMostOneRuns(db.tasks[t := task])
  {
  }

  lemma {:induction false} ChangedLife(db: Db, t: TaskId, task: Task, kind: Kind, u: TaskId)
    requires t in db.tasks && u in db.tasks && Lives(db, u) && Lives(db, t)
    requires var next := Advance(PhaseOf(Trace(db.events, t)).value, kind);
             next.Some? && Agrees(task.status, next.value)
    ensures Lives(Log(Put(db, t, task), t, kind), u)
  {
    TraceOfLog(db, t, kind, u);
    assert Log(Put(db, t, task), t, kind).events == Log(db, t, kind).events;
    PhaseOfMore(Trace(db.events, u), kind);
  }

  lemma {:induction false} CreatedLives(db: Db, db': Db, t: TaskId)
    requires Owned(db.events, db.tasks) && t !in db.tasks && t in db'.tasks && db'.tasks[t].status.Queued?
    requires db'.tasks == db.tasks[t := db'.tasks[t]] && db'.events == db.events
    requires forall u :: u in db.tasks ==> Lives(db, u)
    ensures forall u :: u in db'.tasks ==> Lives(db', u)
  {
    NoTrace(db.events, t);
    forall u | u in db'.tasks
      ensures Lives(db', u)
    {
      assert u in db.tasks ==> Lives(db, u);
    }
  }

  lemma {:induction false} CreatedRows(tasks: map<TaskId, Task>, lastRow: nat, t: TaskId, task: Task)
    requires RowsDistinct(tasks, lastRow) && AtMostOneRuns(tasks) && DecisionsKept(tasks) && t !in tasks
    requires task.rowid == lastRow + 1 && task.status.Queued?
    ensures var after := tasks[t := task]; RowsDistinct(after, lastRow + 1) && AtMostOneRuns(after) && DecisionsKept(after)
  {
  }

  lemma {:induction false} CreateKeeps(db: Db, t: TaskId, params: Params, now: int)
    requires Consistent(db) && CreateTask(db, t, params, now).Ok?
    ensures Consistent(CreateTask(db, t, params, now).value)
  {
    ConsistentMeans(db);
    var db' := CreateTask(db, t, params, now).value;
    CreatedLives(db, db', t);
    CreatedRows(db.tasks, db.lastRow, t, db'.tasks[t]);
    assert Owned(db'.events, db'.tasks);
    Assembled(db', db'.tasks);
  }

  lemma {:induction false} NoTrace(events: seq<Event>, t: TaskId)
    requires forall i :: 0 <= i < |events| ==> events[i].task != t
    ensures Trace(events, t) == []
  {
    if events == [] {
    } else {
      NoTrace(events[..|events| - 1], t);
    }
  }

  lemma {:induction false} ClaimKeeps(db: Db, r: Option<TaskId>, db': Db)
    requires Consistent(db) && Claimed(db, r, db')
    ensures Consistent(db')
    ensures r.Some? ==> PhaseOf(Trace(db'.events, r.value)) == Some(Open(false))
  {
    ConsistentMeans(db');
    ConsistentMeans(db);
    forall u | u in db'.tasks
      ensures Lives(db', u)
    {
      assert Lives(db, u);
    }
  }

  lemma {:induction false} SameLives(db: Db, db': Db)
    requires db'.events == db.events && db'.tasks.Keys == db.tasks.Keys
    requires forall u :: u in db.tasks ==> db'.tasks[u].status == db.tasks[u].status && Lives(db, u)
    ensures forall u :: u in db'.tasks ==> Lives(db', u)
  {
    forall u | u in db'.tasks
      ensures Lives(db', u)
    {
      assert u in db.tasks.Keys && Lives(db, u);
    }
  }

  lemma {:induction false} SaveKeeps(db: Db, t: TaskId, section: string, text: string)
    requires Consistent(db) && t in db.tasks && !db.tasks[t].status.Completed?
    ensures Consistent(SaveSection(db, t, section, text).value)
  {
    ConsistentMeans(db);
    var db' := SaveSection(db, t, section, text).value;
    SameLives(db, db');
    PutKeepsRows(db, t, db'.tasks[t]);
    PutKeepsDecisions(db.tasks, t, db'.tasks[t]);
    Assembled(db', db.tasks);
  }

  lemma {:induction false} FinishKeeps(db: Db, t: TaskId, rating: string, decision: string)
    requires Finish(db, t, rating, decision).Ok?
    ensures Consistent(db) && PhaseOf(Trace(db.events, t)) == Some(Open(true)) ==> Consistent(Finish(db, t, rating, decision).value)
  {
    if Consistent(db) && PhaseOf(Trace(db.events, t)) == Some(Open(true)) {
      ConsistentMeans(db);
      assert Lives(db, t);
      var done := db.tasks[t].(status := Completed, rating := Some(rating), decision := Some(decision), error := None);
      ChangeKeeps(db, t, done, CompletedEvent(rating));
    }
  }

  lemma {:induction false} FailKeeps(db: Db, t: TaskId, error: string)
    requires Fail(db, t, error).Ok?
    ensures Consistent(db) && PhaseOf(Trace(db.events, t)) == Some(Open(true)) ==> Consistent(Fail(db, t, error).value)
  {
    if Consistent(db) && PhaseOf(Trace(db.events, t)) == Some(Open(true)) {
      ConsistentMeans(db);
      assert Lives(db, t);
      ChangeKeeps(db, t, db.tasks[t].(status := Failed, error := Some(error), rating := None), FailedEvent(error));
    }
  }

  lemma {:induction false} RequeueKeeps(db: Db, t: TaskId)
    requires Consistent(db) && Requeue(db, t).Ok?
    ensures Consistent(Requeue(db, t).value)
  {
    ConsistentMeans(db);
    assert Lives(db, t);
    ChangeKeeps(db, t, db.tasks[t].(status := Queued, resumeRequested := true, error := None), QueuedEvent);
  }

  lemma {:induction false} ListsAtMostOne(db: Db, ids: seq<TaskId>)
    requires AtMostOneRuns(db.tasks) && ListsRunning(db, ids)
    ensures |ids| <= 1
  {
    assert forall i :: 0 <= i < |ids| ==> ids[i] in ids;
    assert ids == [] || ids[|ids| - 1] == ids[0];
  }

  /** With one running task at most, stopping "all" running tasks is one status change. */
  lemma {:induction false} InterruptKeeps(db: Db, ids: seq<TaskId>)
    requires Consistent(db) && ListsRunning(db, ids)
    ensures Consistent(InterruptRunning(db, ids)) && !AnyRunning(InterruptRunning(db, ids))
    ensures |ids| <= 1
    ensures InterruptRunning(db, ids) ==
            if ids == [] then db
            else Log(Put(db, ids[0], db.tasks[ids[0]].(status := Interrupted)), ids[0], InterruptedEvent)
  {
    ConsistentMeans(db);
    var db' := InterruptRunning(db, ids);
    ListsAtMostOne(db, ids);
    if ids == [] {
      assert forall t :: t in db.tasks ==> t !in ids && !db.tasks[t].status.Running?;
      assert db'.tasks == db.tasks;
    } else {
      var t := ids[0];
      assert t in ids && Lives(db, t);
      var stopped := db.tasks[t].(status := Interrupted);
      var marked := map u | u in db.tasks ::
        if db.tasks[u].status.Running? then db.tasks[u].(status := Interrupted) else db.tasks[u];
      assert forall u :: u in db.tasks && u != t ==> u !in ids;
      assert marked == db.tasks[t := stopped];
      assert db.(tasks := marked) == Put(db, t, stopped);
      var logged := Log(Put(db, t, stopped), t, InterruptedEvent);
      assert ids[1..] == [] && LogInterrupted(logged, ids[1..]) == logged;
      ChangeKeeps(db, t, stopped, InterruptedEvent);
    }
  }

  lemma {:induction false} WithoutKeeps(events: seq<Event>, t: TaskId, lastId: nat)
    requires Ascending(events, lastId)
    ensures Ascending(Without(events, t), lastId)
    ensures forall e :: e in Without(events, t) ==> e in events && e.task != t
  {
    if events == [] {
    } else {
      var front, last := events[..|events| - 1], events[|events| - 1];
      assert events == front + [last];
      WithoutKeeps(front, t, lastId);
      var kept := Without(front, t);
      forall i | 0 <= i < |kept|
        ensures kept[i].id < last.id
      {
        assert kept[i] in kept && kept[i] in front;
      }
    }
  }

  lemma {:induction false} WithoutTraces(events: seq<Event>, t: TaskId, u: TaskId)
    requires u != t
    ensures Trace(Without(events, t), u) == Trace(events, u)
  {
    if events == [] {
    } else {
      var front, last := events[..|events| - 1], events[|events| - 1];
      WithoutTraces(front, t, u);
      var kept := Without(front, t);
      assert (kept + [last])[..|kept|] == kept;
    }
  }

  lemma {:induction false} DeleteKeeps(db: Db, t: TaskId)
    requires Consistent(db) && DeleteTask(db, t).Ok?
    ensures Consistent(DeleteTask(db, t).value)
  {
    ConsistentMeans(db);
    var db' := DeleteTask(db, t).value;
    ConsistentMeans(db');
    WithoutKeeps(db.events, t, db.lastId);
    forall i | 0 <= i < |db'.events|
      ensures db'.events[i].task in db'.tasks
    {
      assert db'.events[i] in db'.events && db'.events[i] in db.events;
    }
    forall u | u in db'.tasks
      ensures Lives(db', u)
    {
      assert Lives(db, u);
      WithoutTraces(db.events, t, u);
    }
  }

  // ---------------------------------------------------------------- what a legal life looks like

  predicate Milestone(kind: Kind) {
    !kind.RunningEvent? && !kind.SectionEvent?
  }

  function Milestones(kinds: seq<Kind>): seq<Kind> {
    if kinds == [] then []
    else
      var rest := Milestones(kinds[..|kinds| - 1]);
      if Milestone(kinds[|kinds| - 1]) then rest + [kinds[|kinds| - 1]] else rest
  }

  /** (interrupted queued)* followed by at most one of interrupted, completed, failed. */
  predicate LifeCycle(ms: seq<Kind>) {
    && (forall i :: 0 <= i < |ms| && i % 2 == 1 ==> ms[i].QueuedEvent?)
    && (forall i :: 0 <= i < |ms| - 1 && i % 2 == 0 ==> ms[i].InterruptedEvent?)
    && (|ms| % 2 == 1 ==> var last := ms[|ms| - 1]; last.InterruptedEvent? || last.CompletedEvent? || last.FailedEvent?)
  }

  /** Every legal trace is such a life cycle, and its last milestone fixes the phase. */
  lemma {:induction false} LegalLife(kinds: seq<Kind>)
    requires PhaseOf(kinds).Some?
    ensures LifeCycle(Milestones(kinds))
    ensures var ms := Milestones(kinds);
            match PhaseOf(kinds).value
            case Open(_) => |ms| % 2 == 0
            case Stopped => |ms| % 2 == 1 && ms[|ms| - 1].InterruptedEvent? && kinds[|kinds| - 1].InterruptedEvent?
            case Done(ok) => |ms| % 2 == 1 && kinds[|kinds| - 1] == ms[|ms| - 1] &&
                             (if ok then ms[|ms| - 1].CompletedEvent? else ms[|ms| - 1].FailedEvent?)
  {
    if kinds == [] {
    } else {
      LegalLife(kinds[..|kinds| - 1]);
    }
  }

  /** Section events fall inside an announced run: after the last queueing comes a `running` event. */
  lemma {:induction false} SectionsInsideRuns(kinds: seq<Kind>, i: nat)
    requires PhaseOf(kinds).Some? && i < |kinds| && kinds[i].SectionEvent?
    ensures exists j :: 0 <= j < i && kinds[j].RunningEvent? && forall k :: j < k < i ==> kinds[k].SectionEvent?
  {
    PhasePrefix(kinds, i + 1);
    assert kinds[..i + 1][..i] == kinds[..i];
    AnnouncedSince(kinds, i);
  }

  lemma {:induction false} PhasePrefix(kinds: seq<Kind>, n: nat)
    requires PhaseOf(kinds).Some? && n <= |kinds|
    ensures PhaseOf(kinds[..n]).Some?
    decreases |kinds| - n
  {
    if n < |kinds| {
      PhasePrefix(kinds, n + 1);
      assert kinds[..n + 1][..n] == kinds[..n];
    } else {
      assert kinds[..n] == kinds;
    }
  }

  lemma {:induction false} AnnouncedSince(kinds: seq<Kind>, i: nat)
    requires i <= |kinds| && PhaseOf(kinds[..i]) == Some(Open(true))
    ensures exists j :: 0 <= j < i && kinds[j].RunningEvent? && forall k :: j < k < i ==> kinds[k].SectionEvent?
  {
    if i == 0 {
    } else {
      assert kinds[..i][..i - 1] == kinds[..i - 1];
      if kinds[i - 1].SectionEvent? {
        AnnouncedSince(kinds, i - 1);
      }
    }
  }

  // ---------------------------------------------------------------- the tables as they are mutated

  /** Some queued task heads the queue. */
  lemma {:induction false} HeadExists(tasks: map<TaskId, Task>, among: set<TaskId>) returns (t: TaskId)
    requires among != {} && forall u :: u in among ==> u in tasks
    ensures t in among && forall u :: u in among ==> Before(tasks[t], tasks[u])
  {
    t :| t in among;
    if among != {t} {
      var best := HeadExists(tasks, among - {t});
      if !Before(tasks[t], tasks[best]) {
        t := best;
      }
    }
  }

  /** Rows are distinct, so the head is unique: claims follow (created_at, rowid) order. */
  lemma {:induction false} HeadUnique(db: Db, t: TaskId, u: TaskId)
    requires Consistent(db) && Heads(db.tasks, t) && Heads(db.tasks, u)
    ensures t == u
  {
    ConsistentMeans(db);
    assert Before(db.tasks[t], db.tasks[u]) && Before(db.tasks[u], db.tasks[t]);
  }

  class Store {
    var tasks: map<TaskId, Task>
    var events: seq<Event>
    var lastId: nat
    var lastRow: nat
    var settings: Settings

    ghost function View(): Db
      reads this
    {
      Db(tasks, events, lastId, lastRow, settings)
    }

    constructor ()
      ensures View() == Db(map[], [], 0, 0, Settings(None, None, map[], map[]))
      ensures Consistent(View())
    {
      tasks, events, lastId, lastRow := map[], [], 0, 0;
      settings := Settings(None, None, map[], map[]);
    }

    method Insert(t: TaskId, kind: Kind)
      modifies this`events, this`lastId
      ensures View() == Log(old(View()), t, kind)
    {
      lastId := lastId + 1;
      events := events + [Event(lastId, t, kind)];
    }

    method Create(t: TaskId, params: Params, now: int) returns (ok: bool)
      modifies this`tasks, this`lastRow
      ensures match CreateTask(old(View()), t, params, now)
              case Ok(db) => ok && View() == db
              case Err(_) => !ok && View() == old(View())
      ensures old(Consistent(View())) ==> Consistent(View())
    {
      ghost var before := View();
      if !Joins(settings, params.provider) || t in tasks {
        return false;
      }
      lastRow := lastRow + 1;
      tasks := tasks[t := Task(params, Queued, map[], None, None, None, false, now, lastRow)];
      ok := true;
      if Consistent(before) { CreateKeeps(before, t, params, now); }
    }

    method ClaimNext() returns (r: Option<TaskId>)
      modifies this`tasks
      ensures Claimed(old(View()), r, View())
      ensures old(Consistent(View())) ==> Consistent(View())
    {
      ghost var before := View();
      if exists t :: t in tasks && tasks[t].status.Running? {
        return None;
      }
      var queued := set t | t in tasks && tasks[t].status.Queued?;
      if queued == {} {
        assert forall t :: t in tasks ==> t !in queued;
        return None;
      }
      ghost var someHead := HeadExists(tasks, queued);
      assert Heads(tasks, someHead);
      var head :| head in tasks && tasks[head].status.Queued? &&
        forall u :: u in tasks && tasks[u].status.Queued? ==> Before(tasks[head], tasks[u]);
      tasks := tasks[head := tasks[head].(status := Running)];
      r := Some(head);
      if Consistent(before) { ClaimKeeps(before, r, View()); }
    }

    method Append(t: TaskId, kind: Kind) returns (ok: bool)
      modifies this`events, this`lastId
      ensures match AppendEvent(old(View()), t, kind)
              case Ok(db) => ok && View() == db
              case Err(_) => !ok && View() == old(View())
      ensures ok == (t in tasks)
      ensures forall u :: Trace(events, u) == old(Trace(events, u)) + (if ok && u == t then [kind] else [])
      ensures old(Ascending(events, lastId)) ==> Ascending(events, lastId)
    {
      ghost var before := View();
      if t !in tasks {
        return false;
      }
      Insert(t, kind);
      ok := true;
      forall u
        ensures Trace(events, u) == Trace(before.events, u) + (if u == t then [kind] else [])
      {
        TraceOfLog(before, t, kind, u);
      }
    }

    method Save(t: TaskId, section: string, text: string) returns (ok: bool)
      modifies this`tasks
      ensures match SaveSection(old(View()), t, section, text)
              case Ok(db) => ok && View() == db
              case Err(_) => !ok && View() == old(View())
      ensures forall u :: u in tasks && u != t ==> u in old(tasks) && tasks[u] == old(tasks)[u]
      ensures ok ==> section in tasks[t].sections && tasks[t].sections[section] == text && tasks[t].status == old(tasks)[t].status
      ensures old(Consistent(View()) && (t in tasks ==> !tasks[t].status.Completed?)) ==> Consistent(View())
    {
      ghost var before := View();
      if t in tasks && !tasks[t].status.Completed? && Consistent(before) { SaveKeeps(before, t, section, text); }
      if t !in tasks {
        return false;
      }
      tasks := tasks[t := tasks[t].(sections := tasks[t].sections[section := text])];
      ok := true;
    }

    method FinishTask(t: TaskId, rating: string, decision: string) returns (ok: bool)
      modifies this`tasks, this`events, this`lastId
      ensures match Finish(old(View()), t, rating, decision)
              case Ok(db) => ok && View() == db
              case Err(_) => !ok && View() == old(View())
      ensures ok <==> rating in RATINGS && old(t in tasks && DecisionSaved(tasks[t], decision) && tasks[t].status.Running?)
      ensures ok ==> tasks == old(tasks)[t := tasks[t]] && tasks[t].status.Completed? && DecisionKept(tasks[t])
      ensures old(Consistent(View()) && t in tasks && PhaseOf(Trace(events, t)) == Some(Open(true))) ==> Consistent(View())
    {
      ghost var before := View();
      if rating in RATINGS && t in tasks && DecisionSaved(tasks[t], decision) && tasks[t].status.Running? {
        FinishKeeps(before, t, rating, decision);
      }
      if rating !in RATINGS {
        return false;
      }
      if t !in tasks || !DecisionSaved(tasks[t], decision) || !tasks[t].status.Running? {
        return false;
      }
      tasks := tasks[t := tasks[t].(status := Completed, rating := Some(rating), decision := Some(decision), error := None)];
      Insert(t, CompletedEvent(rating));
      ok := true;
    }

    method FailTask(t: TaskId, error: string) returns (ok: bool)
      modifies this`tasks, this`events, this`lastId
      ensures match Fail(old(View()), t, error)
              case Ok(db) => ok && View() == db
              case Err(_) => !ok && View() == old(View())
      ensures ok <==> old(t in tasks && tasks[t].status.Running?)
      ensures ok ==> tasks == old(tasks)[t := tasks[t]] && tasks[t].status.Failed? && tasks[t].sections == old(tasks)[t].sections
      ensures old(Consistent(View()) && t in tasks && PhaseOf(Trace(events, t)) == Some(Open(true))) ==> Consistent(View())
    {
      ghost var before := View();
      if t in tasks && tasks[t].status.Running? {
        FailKeeps(before, t, error);
      }
      if t !in tasks || !tasks[t].status.Running? {
        return false;
      }
      tasks := tasks[t := tasks[t].(status := Failed, error := Some(error), rating := None)];
      Insert(t, FailedEvent(error));
      ok := true;
    }

    method RequeueInterrupted(t: TaskId) returns (ok: bool)
      modifies this`tasks, this`events, this`lastId
      ensures match Requeue(old(View()), t)
              case Ok(db) => ok && View() == db
              case Err(_) => !ok && View() == old(View())
      ensures old(Consistent(View())) ==> Consistent(View())
    {
      ghost var before := View();
      if t !in tasks || !tasks[t].status.Interrupted? {
        return false;
      }
      tasks := tasks[t := tasks[t].(status := Queued, resumeRequested := true, error := None)];
      Insert(t, QueuedEvent);
      ok := true;
      if Consistent(before) { RequeueKeeps(before, t); }
    }

    method InterruptAll() returns (ids: seq<TaskId>)
      modifies this`tasks, this`events, this`lastId
      ensures ListsRunning(old(View()), ids)
      ensures View() == InterruptRunning(old(View()), ids)
      ensures old(Consistent(View())) ==> Consistent(View()) && !AnyRunning(View())
    {
      ghost var before := View();
      var left := set t | t in tasks && tasks[t].status.Running?;
      ids := [];
      while left != {}
        invariant View() == before
        invariant forall i, j :: 0 <= i < j < |ids| ==> ids[i] != ids[j]
        invariant forall t :: t in tasks && tasks[t].status.Running? <==> t in ids || t in left
        invariant forall t :: t in ids ==> t !in left
        decreases left
      {
        var t :| t in left;
        ids, left := ids + [t], left - {t};
      }
      tasks := map t | t in tasks ::
        if tasks[t].status.Running? then tasks[t].(status := Interrupted) else tasks[t];
      var i := 0;
      while i < |ids|
        invariant 0 <= i <= |ids|
        invariant LogInterrupted(View(), ids[i..]) == InterruptRunning(before, ids)
      {
        Insert(ids[i], InterruptedEvent);
        assert ids[i..][1..] == ids[i + 1..];
        i := i + 1;
      }
      if Consistent(before) { InterruptKeeps(before, ids); }
    }

    method Delete(t: TaskId) returns (ok: bool)
      modifies this`tasks, this`events
      ensures match DeleteTask(old(View()), t)
              case Ok(db) => ok && View() == db
              case Err(_) => !ok && View() == old(View())
      ensures old(Consistent(View())) ==> Consistent(View())
    {
      ghost var before := View();
      if t !in tasks || tasks[t].status.Running? {
        return false;
      }
      tasks := tasks - {t};
      events := Without(events, t);
      ok := true;
      if Consistent(before) { DeleteKeeps(before, t); }
    }
  }
}
