/**
 Event delivery: `TaskWorker.wait_for_events` (web/worker.py), the server-sent-event loop of
 web/api.py and the browser's cursor (web/client/src/pages/Run.tsx), interleaved with every
 actor of the research engine.

 One subscriber follows one task that nobody deletes. The condition lock is held from a read
 in `wait_for_events` until the waiter returns or sleeps; commits need no lock, but every
 commit is followed by a `notify` that does. `owed` counts commits of this task's events
 whose notify has not happened yet.
 */
module Delivery {
  import opened Wrappers
  import opened TaskStore
  import opened Engine
  import opened EngineSafety

  datatype Stream =
    | Closed
    | Reading                                  // lock held, about to read events past the cursor
    | Checking                                 // lock held, that read was empty
    | Rereading                                // lock held, the task was seen terminal
    | Asleep                                   // waiting on the condition, lock released
    | Yielding(batch: seq<Event>)
    | Snapshotting                             // an empty batch: about to look at the task
    | Trailing(final: Event)                   // seen terminal: about to read once more
    | Flushing(rest: seq<Event>, final: Event) // yielding the trailing read, then returning
    | Finished(final: Event)

  /** `got` and `sent` count events past `start` that the client has and the server has yielded. */
  datatype World = World(
    engine: Engine,
    task: TaskId,
    start: nat,
    owed: nat,
    stream: Stream,
    serverCursor: nat,
    inflight: seq<Event>,
    received: seq<Event>,
    cursor: nat,
    got: nat,
    sent: nat)

  datatype Move =
    | Act(action: Action)
    | Notify
    | Timeout
    | Connect
    | Disconnect
    | Read
    | Check(expired: bool)
    | Reread
    | Yield
    | Snapshot
    | Trail
    | Flush
    | Receive

  /** The events the subscriber is owed: its task's, past its starting cursor. */
  function Due(w: World): seq<Event> {
    EventsAfter(w.engine.db.events, w.task, w.start)
  }

  function Pending(w: World, cursor: nat): seq<Event> {
    EventsAfter(w.engine.db.events, w.task, cursor)
  }

  predicate Terminal(status: Status) {
    status.Completed? || status.Failed? || status.Interrupted?
  }

  predicate HoldsLock(s: Stream) {
    s.Reading? || s.Checking? || s.Rereading?
  }

  predicate Ending(kind: Kind) {
    kind.CompletedEvent? || kind.FailedEvent? || kind.InterruptedEvent?
  }

  function Returns(w: World, batch: seq<Event>): World {
    w.(stream := if batch == [] then Snapshotting else Yielding(batch))
  }

  predicate SeenTerminal(w: World) {
    w.task in w.engine.db.tasks && Terminal(w.engine.db.tasks[w.task].status)
  }

  ghost function Next(w: World, m: Move): World {
    match m
    case Act(a) =>
      if a == Delete(w.task) then w
      else
        var w' := w.(engine := Step(w.engine, a));
        if a.Crash? then w'.(owed := 0, stream := Closed, inflight := [], sent := w.got)
        else if Pending(w', 0) == Pending(w, 0) then w'
        else w'.(owed := w.owed + 1)
    case Notify =>
      if w.owed == 0 || HoldsLock(w.stream) then w
      else w.(owed := w.owed - 1, stream := if w.stream.Asleep? then Reading else w.stream)
    case Timeout => if w.stream.Asleep? then w.(stream := Reading) else w
    case Connect =>
      if w.stream.Closed? || w.stream.Finished?
      then w.(stream := Reading, serverCursor := w.cursor, inflight := [], sent := w.got) else w
    case Disconnect => w.(stream := Closed, inflight := [], sent := w.got)
    case Read =>
      if !w.stream.Reading? then w
      else if Pending(w, w.serverCursor) != [] then Returns(w, Pending(w, w.serverCursor))
      else w.(stream := Checking)
    case Check(expired) =>
      if !w.stream.Checking? then w
      else if SeenTerminal(w) then w.(stream := Rereading)
      else if expired then Returns(w, [])
      else w.(stream := Asleep)
    case Reread => if w.stream.Rereading? then Returns(w, Pending(w, w.serverCursor)) else w
    case Yield =>
      if !w.stream.Yielding? then w
      else if w.stream.batch == [] then w.(stream := Reading)
      else
        var e := w.stream.batch[0];
        w.(serverCursor := e.id, inflight := w.inflight + [e], sent := w.sent + 1, stream := Yielding(w.stream.batch[1..]))
    case Snapshot =>
      if !w.stream.Snapshotting? then w
      else if SeenTerminal(w) && Pending(w, 0) != []
      then w.(stream := Trailing(Pending(w, 0)[|Pending(w, 0)| - 1]))
      else w.(stream := Reading)
    case Trail => if w.stream.Trailing? then w.(stream := Flushing(Pending(w, w.serverCursor), w.stream.final)) else w
    case Flush =>
      if !w.stream.Flushing? then w
      else if w.stream.rest == [] then w.(stream := Finished(w.stream.final))
      else w.(inflight := w.inflight + [w.stream.rest[0]], sent := w.sent + 1, stream := w.stream.(rest := w.stream.rest[1..]))
    case Receive =>
      if w.inflight == [] then w
      else
        var e := w.inflight[0];
        if e.id <= w.cursor then w.(inflight := w.inflight[1..])
        else w.(inflight := w.inflight[1..], received := w.received + [e], cursor := e.id, got := w.got + 1)
  }

  // ---------------------------------------------------------------- the log only grows at its end

  lemma {:induction false} LogAfter(db: Db, u: TaskId, kind: Kind, t: TaskId, cursor: nat)
    ensures EventsAfter(Log(db, u, kind).events, t, cursor) ==
            EventsAfter(db.events, t, cursor) +
            (if u == t && db.lastId + 1 > cursor then [Event(db.lastId + 1, u, kind)] else [])
  {
    assert Log(db, u, kind).events[..|db.events|] == db.events;
  }

  lemma {:induction false} WithoutAfter(events: seq<Event>, u: TaskId, t: TaskId, cursor: nat)
    requires u != t
    ensures EventsAfter(Without(events, u), t, cursor) == EventsAfter(events, t, cursor)
  {
    if events == [] {
    } else {
      var front, last := events[..|events| - 1], events[|events| - 1];
      WithoutAfter(front, u, t, cursor);
      var kept := Without(front, u);
      assert (kept + [last])[..|kept|] == kept;
    }
  }

  lemma {:induction false} AfterMembers(events: seq<Event>, t: TaskId, cursor: nat, e: Event)
    requires e in EventsAfter(events, t, cursor)
    ensures e in events && e.task == t && e.id > cursor
  {
    var front, last := events[..|events| - 1], events[|events| - 1];
    assert events == front + [last];
    if e in EventsAfter(front, t, cursor) {
      AfterMembers(front, t, cursor, e);
    }
  }

  lemma {:induction false} AfterAscends(events: seq<Event>, lastId: nat, t: TaskId, cursor: nat)
    requires Ascending(events, lastId)
    ensures Ascending(EventsAfter(events, t, cursor), lastId)
  {
    if events == [] {
    } else {
      var front, last := events[..|events| - 1], events[|events| - 1];
      AfterAscends(front, lastId, t, cursor);
      var l := EventsAfter(front, t, cursor);
      forall i | 0 <= i < |l|
        ensures l[i].id < last.id
      {
        AfterMembers(front, t, cursor, l[i]);
      }
    }
  }

  lemma {:induction false} AfterFacts(events: seq<Event>, lastId: nat, t: TaskId, cursor: nat)
    requires Ascending(events, lastId)
    ensures var l := EventsAfter(events, t, cursor);
            && Ascending(l, lastId)
            && forall i :: 0 <= i < |l| ==> l[i] in events && l[i].task == t && l[i].id > cursor
  {
    AfterAscends(events, lastId, t, cursor);
    var l := EventsAfter(events, t, cursor);
    forall i | 0 <= i < |l|
      ensures l[i] in events && l[i].task == t && l[i].id > cursor
    {
      AfterMembers(events, t, cursor, l[i]);
    }
  }

  /** Reading past a later cursor drops exactly the events up to it. */
  lemma {:induction false} AfterSplit(events: seq<Event>, lastId: nat, t: TaskId, lo: nat, hi: nat, k: nat)
    requires Ascending(events, lastId) && lo <= hi
    requires var l := EventsAfter(events, t, lo);
             k <= |l| && (forall i :: 0 <= i < k ==> l[i].id <= hi) && (forall i :: k <= i < |l| ==> l[i].id > hi)
    ensures EventsAfter(events, t, hi) == EventsAfter(events, t, lo)[k..]
  {
    if events == [] {
    } else {
      var front, last := events[..|events| - 1], events[|events| - 1];
      var l, lf := EventsAfter(events, t, lo), EventsAfter(front, t, lo);
      if last.task == t && last.id > lo {
        assert l == lf + [last];
        assert forall i :: 0 <= i < |lf| ==> lf[i] == l[i];
        assert l[|l| - 1] == last;
        if k == |l| {
          AfterSplit(front, lastId, t, lo, hi, |lf|);
        } else {
          AfterSplit(front, lastId, t, lo, hi, k);
          assert l[k..] == lf[k..] + [last];
        }
      } else {
        AfterSplit(front, lastId, t, lo, hi, k);
      }
    }
  }

  /** What a step does to one task's events: at most one more, numbered past everything so far. */
  ghost predicate Grows(e: Engine, e': Engine, t: TaskId, more: seq<Event>) {
    && |more| <= 1
    && (more != [] ==> more[0].id == e.db.lastId + 1 && more[0].task == t)
    && (forall c: nat :: EventsAfter(e'.db.events, t, c) ==
         EventsAfter(e.db.events, t, c) + (if more != [] && more[0].id > c then more else []))
  }

  lemma {:induction false} StepGrows(e: Engine, a: Action, t: TaskId) returns (more: seq<Event>)
    requires Good(e) && t in e.db.tasks && a != Delete(t)
    ensures t in Step(e, a).db.tasks
    ensures Grows(e, Step(e, a), t, more)
  {
    if IsRequest(a) {
      more := RequestGrows(e, a, t);
    } else if a.Boot? {
      if Life(e, a) != e {
        InterruptKeeps(e.db, a.ids);
        if a.ids != [] {
          more := LogGrows(e, Life(e, a), a.ids[0], InterruptedEvent, t);
          return;
        }
      }
      more := [];
      SameEventsGrow(e, Life(e, a), t);
    } else if a.Exit? || a.Crash? || a.LoseKey? || a.LoseTag? || a.Claim? || !e.worker.Busy? {
      more := [];
      SameEventsGrow(e, Step(e, a), t);
    } else {
      WorkMovesOwnRow(e, a);
      more := WorkGrows(e, a, t);
    }
  }

  lemma {:induction false} SameEventsGrow(e: Engine, e': Engine, t: TaskId)
    requires e'.db.events == e.db.events
    ensures Grows(e, e', t, [])
  {
  }

  lemma {:induction false} LogGrows(e: Engine, e': Engine, u: TaskId, kind: Kind, t: TaskId) returns (more: seq<Event>)
    requires e'.db.events == Log(e.db, u, kind).events
    ensures Grows(e, e', t, more)
  {
    more := if u == t then [Event(e.db.lastId + 1, u, kind)] else [];
    forall c: nat
      ensures EventsAfter(e'.db.events, t, c) ==
              EventsAfter(e.db.events, t, c) + (if more != [] && more[0].id > c then more else [])
    {
      LogAfter(e.db, u, kind, t, c);
    }
  }

  lemma {:induction false} RequestGrows(e: Engine, a: Action, t: TaskId) returns (more: seq<Event>)
    requires IsRequest(a) && t in e.db.tasks && a != Delete(t)
    ensures t in Request(e, a).db.tasks
    ensures Grows(e, Request(e, a), t, more)
  {
    var e' := Request(e, a);
    more := [];
    if a.Resume? {
      if Requeue(e.db, a.id).Ok? { more := LogGrows(e, e', a.id, QueuedEvent, t); }
    } else if a.Delete? {
      if DeleteTask(e.db, a.id).Ok? {
        forall c: nat
          ensures EventsAfter(e'.db.events, t, c) == EventsAfter(e.db.events, t, c)
        {
          WithoutAfter(e.db.events, a.id, t, c);
        }
      }
    } else if !a.Create? && !a.Rerun? && e.db.settings.joined.Some? {
      RegistryAside(e, a);
    }
  }

  /** One step of the worker logs at most one event, its own task's. */
  lemma {:induction false} WorkLogs(e: Engine, a: Action) returns (kind: Kind)
    requires e.worker.Busy?
    ensures Work(e, a).db.events in {e.db.events, Log(e.db, e.worker.task, kind).events}
  {
    var events := Work(e, a).db.events;
    kind := if events == [] then RunningEvent else events[|events| - 1].kind;
  }

  lemma {:induction false} WorkGrows(e: Engine, a: Action, t: TaskId) returns (more: seq<Event>)
    requires e.worker.Busy?
    ensures Grows(e, Work(e, a), t, more)
  {
    var kind := WorkLogs(e, a);
    if Work(e, a).db.events == e.db.events {
      more := [];
    } else {
      more := LogGrows(e, Work(e, a), e.worker.task, kind, t);
    }
  }

  // ---------------------------------------------------------------- the invariant

  function At(w: World, k: nat): nat
    requires k <= |Due(w)|
  {
    if k == 0 then w.start else Due(w)[k - 1].id
  }

  predicate Observed(w: World, final: Event) {
    && Ending(final.kind)
    && final in Pending(w, 0)
  }

  ghost predicate Sent(w: World, final: Event, k: nat)
    requires k <= |Due(w)|
  {
    final.id > w.start ==> final in Due(w)[..k]
  }

  ghost predicate StreamOk(w: World)
    requires w.got <= w.sent <= |Due(w)|
  {
    match w.stream
    case Yielding(batch) =>
      w.sent + |batch| <= |Due(w)| && batch == Due(w)[w.sent..w.sent + |batch|]
    case Trailing(final) => Observed(w, final)
    case Flushing(rest, final) =>
      && Observed(w, final)
      && w.sent + |rest| <= |Due(w)| && rest == Due(w)[w.sent..w.sent + |rest|]
      && Sent(w, final, w.sent + |rest|)
    case Finished(final) => Observed(w, final) && Sent(w, final, w.sent)
    case _ => true
  }

  ghost predicate Flows(w: World) {
    && w.got <= w.sent <= |Due(w)|
    && w.received == Due(w)[..w.got]
    && w.cursor == At(w, w.got)
    && w.inflight == Due(w)[w.got..w.sent]
    && (!w.stream.Closed? && !w.stream.Flushing? && !w.stream.Finished? ==> w.serverCursor == At(w, w.sent))
    && (w.stream.Closed? ==> w.sent == w.got)
    && StreamOk(w)
    && (w.stream.Checking? || w.stream.Asleep? ==> w.sent < |Due(w)| ==> w.owed > 0)
  }

  ghost predicate Delivering(w: World) {
    Good(w.engine) && w.task in w.engine.db.tasks && Flows(w)
  }

  lemma {:induction false} SplitAt(events: seq<Event>, lastId: nat, t: TaskId, start: nat, k: nat)
    requires Ascending(events, lastId) && k <= |EventsAfter(events, t, start)|
    ensures var due := EventsAfter(events, t, start);
            var at := if k == 0 then start else due[k - 1].id;
            EventsAfter(events, t, at) == due[k..] && forall i :: k <= i < |due| ==> due[i].id > at
  {
    var due := EventsAfter(events, t, start);
    AfterFacts(events, lastId, t, start);
    AfterSplit(events, lastId, t, start, if k == 0 then start else due[k - 1].id, k);
  }

  /** At any position the pending events past that position's cursor are the rest of what is due. */
  lemma {:induction false} PendingAt(w: World, k: nat)
    requires Good(w.engine) && k <= |Due(w)|
    ensures Pending(w, At(w, k)) == Due(w)[k..]
    ensures forall i :: k <= i < |Due(w)| ==> Due(w)[i].id > At(w, k)
  {
    ConsistentMeans(w.engine.db);
    SplitAt(w.engine.db.events, w.engine.db.lastId, w.task, w.start, k);
  }

  lemma {:induction false} ActKeeps(w: World, a: Action)
    requires Delivering(w) && a != Delete(w.task)
    ensures Delivering(Next(w, Act(a)))
  {
    var w' := Next(w, Act(a));
    StepKeeps(w.engine, a);
    var more := StepGrows(w.engine, a, w.task);
    assert Due(w') == Due(w) + (if more != [] && more[0].id > w.start then more else []);
    assert Pending(w', 0) == Pending(w, 0) + more;
    if a.Crash? {
      Dropped(w, w');
    } else {
      GrownFlows(w, w', more);
    }
  }

  lemma {:induction false} Dropped(w: World, w': World)
    requires Flows(w) && Due(w) <= Due(w')
    requires w'.stream.Closed? && w'.inflight == [] && w'.got == w'.sent == w.got
    requires w'.received == w.received && w'.cursor == w.cursor && w'.start == w.start
    ensures Flows(w')
  {
  }

  lemma {:induction false} SliceGrows(due: seq<Event>, due': seq<Event>, lo: nat, hi: nat)
    requires due <= due' && lo <= hi <= |due|
    ensures due'[lo..hi] == due[lo..hi] && due'[..hi] == due[..hi]
  {
  }

  lemma {:induction false} GrownStream(w: World, w': World)
    requires w.got <= w.sent <= |Due(w)| && StreamOk(w) && Due(w) <= Due(w')
    requires w'.stream == w.stream && w'.got == w.got && w'.sent == w.sent && w'.start == w.start
    requires forall e :: e in Pending(w, 0) ==> e in Pending(w', 0)
    ensures StreamOk(w')
  {
    match w.stream {
      case Yielding(batch) => SliceGrows(Due(w), Due(w'), w.sent, w.sent + |batch|);
      case Flushing(rest, final) => SliceGrows(Due(w), Due(w'), w.sent, w.sent + |rest|);
      case Finished(final) => SliceGrows(Due(w), Due(w'), w.sent, w.sent);
      case _ =>
    }
  }

  lemma {:induction false} GrownFlows(w: World, w': World, more: seq<Event>)
    requires Flows(w)
    requires w' == w.(engine := w'.engine, owed := w'.owed)
    requires w'.owed == if more == [] then w.owed else w.owed + 1
    requires Due(w') == Due(w) + (if more != [] && more[0].id > w.start then more else [])
    requires Pending(w', 0) == Pending(w, 0) + more
    ensures Flows(w')
  {
    SliceGrows(Due(w), Due(w'), w.got, w.sent);
    SliceGrows(Due(w), Due(w'), 0, w.got);
    GrownStream(w, w');
  }

  /** A task seen terminal has an ending event, and nothing after it. */
  lemma {:induction false} TerminalEnds(db: Db, t: TaskId)
    requires Consistent(db) && t in db.tasks && Terminal(db.tasks[t].status)
    ensures var l := EventsAfter(db.events, t, 0); l != [] && Ending(l[|l| - 1].kind)
  {
    ConsistentMeans(db);
    assert Lives(db, t);
    LegalLife(Trace(db.events, t));
    AfterIsTrace(db.events, t, db.lastId);
  }

  lemma {:induction false} SnapshotKeeps(w: World)
    requires Flows(w) && Consistent(w.engine.db) && w.stream.Snapshotting?
    ensures Flows(Next(w, Snapshot))
  {
    if SeenTerminal(w) {
      TerminalEnds(w.engine.db, w.task);
    }
  }

  /** Ids start at 1, so reading past cursor 0 reads the whole trace. */
  lemma {:induction false} AfterIsTrace(events: seq<Event>, t: TaskId, lastId: nat)
    requires Ascending(events, lastId)
    requires forall i :: 0 <= i < |events| ==> events[i].id > 0
    ensures var l := EventsAfter(events, t, 0);
            |l| == |Trace(events, t)| && forall i :: 0 <= i < |l| ==> l[i].kind == Trace(events, t)[i]
  {
    if events == [] {
    } else {
      AfterIsTrace(events[..|events| - 1], t, lastId);
    }
  }

  lemma {:induction false} TrailKeeps(w: World)
    requires Delivering(w) && w.stream.Trailing?
    ensures Flows(Next(w, Trail))
  {
    PendingAt(w, w.sent);
    var final := w.stream.final;
    if final.id > w.start {
      InDue(w, final);
    }
  }

  lemma {:induction false} InDue(w: World, e: Event)
    requires Good(w.engine) && e in Pending(w, 0) && e.id > w.start
    ensures e in Due(w)
  {
    ConsistentMeans(w.engine.db);
    AfterFacts(w.engine.db.events, w.engine.db.lastId, w.task, 0);
    AfterMember(w.engine.db.events, w.task, w.start, e);
  }

  lemma {:induction false} AfterMember(events: seq<Event>, t: TaskId, cursor: nat, e: Event)
    requires e in events && e.task == t && e.id > cursor
    ensures e in EventsAfter(events, t, cursor)
  {
    var front := events[..|events| - 1];
    assert events == front + [events[|events| - 1]];
    if e in front {
      AfterMember(front, t, cursor, e);
    }
  }

  /** Handing over the head of the next `n` due events moves one event from unsent to in flight. */
  lemma {:induction false} HandOver(due: seq<Event>, got: nat, sent: nat, n: nat)
    requires got <= sent && n > 0 && sent + n <= |due|
    ensures due[sent..sent + n][0] == due[sent]
    ensures due[sent..sent + n][1..] == due[sent + 1..sent + n]
    ensures due[got..sent] + [due[sent]] == due[got..sent + 1]
  {
  }

  lemma {:induction false} YieldKeeps(w: World)
    requires Flows(w) && w.stream.Yielding?
    ensures Flows(Next(w, Yield))
  {
    if w.stream.batch == [] {
    } else {
      HandOver(Due(w), w.got, w.sent, |w.stream.batch|);
      assert Due(Next(w, Yield)) == Due(w);
    }
  }

  lemma {:induction false} FlushKeeps(w: World)
    requires Flows(w) && w.stream.Flushing?
    ensures Flows(Next(w, Flush))
  {
    if w.stream.rest == [] {
    } else {
      HandOver(Due(w), w.got, w.sent, |w.stream.rest|);
      assert Due(Next(w, Flush)) == Due(w);
    }
  }

  lemma {:induction false} ReadKeeps(w: World)
    requires Delivering(w) && w.stream.Reading?
    ensures Flows(Next(w, Read))
  {
    PendingAt(w, w.sent);
  }

  lemma {:induction false} RereadKeeps(w: World)
    requires Delivering(w) && w.stream.Rereading?
    ensures Flows(Next(w, Reread))
  {
    PendingAt(w, w.sent);
  }

  lemma {:induction false} TakeOne(due: seq<Event>, got: nat, sent: nat)
    requires got < sent <= |due|
    ensures due[got..sent][0] == due[got] && due[got..sent][1..] == due[got + 1..sent]
    ensures due[..got] + [due[got]] == due[..got + 1]
  {
  }

  lemma {:induction false} FirstIsNew(w: World)
    requires Delivering(w) && w.inflight != []
    ensures w.got < w.sent && w.inflight[0] == Due(w)[w.got] && w.inflight[0].id > w.cursor
  {
    PendingAt(w, w.got);
    TakeOne(Due(w), w.got, w.sent);
  }

  lemma {:induction false} ReceiveKeeps(w: World)
    requires Delivering(w) && w.inflight != []
    ensures Flows(Next(w, Receive))
  {
    FirstIsNew(w);
    TakeOne(Due(w), w.got, w.sent);
  }

  lemma {:induction false} NextKeeps(w: World, m: Move)
    requires Delivering(w)
    ensures Delivering(Next(w, m))
  {
    if m.Act? {
      if m.action != Delete(w.task) { ActKeeps(w, m.action); }
    } else {
      MoveAside(w, m);
      MoveFlows(w, m);
    }
  }

  lemma {:induction false} MoveAside(w: World, m: Move)
    requires !m.Act?
    ensures Next(w, m).engine == w.engine && Next(w, m).task == w.task
  {
  }

  lemma {:induction false} MoveFlows(w: World, m: Move)
    requires Delivering(w) && !m.Act?
    ensures Flows(Next(w, m))
  {
    match m {
      case Snapshot => if w.stream.Snapshotting? { SnapshotKeeps(w); }
      case Trail => if w.stream.Trailing? { TrailKeeps(w); }
      case Read => if w.stream.Reading? { ReadKeeps(w); }
      case Reread => if w.stream.Rereading? { RereadKeeps(w); }
      case Receive => if w.inflight != [] { ReceiveKeeps(w); }
      case Yield => if w.stream.Yielding? { YieldKeeps(w); }
      case Flush => if w.stream.Flushing? { FlushKeeps(w); }
      case Check(expired) => CheckKeeps(w, expired);
      case Notify => WakeKeeps(w, m);
      case Timeout => WakeKeeps(w, m);
      case Connect => LinkKeeps(w, m);
      case Disconnect => LinkKeeps(w, m);
    }
  }

  lemma {:induction false} CheckKeeps(w: World, expired: bool)
    requires Flows(w)
    ensures Flows(Next(w, Check(expired)))
  {
  }

  lemma {:induction false} WakeKeeps(w: World, m: Move)
    requires Flows(w) && (m.Notify? || m.Timeout?)
    ensures Flows(Next(w, m))
  {
  }

  lemma {:induction false} LinkKeeps(w: World, m: Move)
    requires Flows(w) && (m.Connect? || m.Disconnect?)
    ensures Flows(Next(w, m))
  {
  }

  // ---------------------------------------------------------------- the promises, for every interleaving

  ghost function Play(w: World, moves: seq<Move>): World {
    if moves == [] then w else Next(Play(w, moves[..|moves| - 1]), moves[|moves| - 1])
  }

  function Subscribe(e: Engine, t: TaskId, start: nat): World {
    World(e, t, start, 0, Closed, start, [], [], start, 0, 0)
  }

  lemma {:induction false} PlayKeeps(w: World, moves: seq<Move>)
    requires Delivering(w)
    ensures Delivering(Play(w, moves)) && Play(w, moves).task == w.task && Play(w, moves).start == w.start
  {
    if moves == [] {
    } else {
      var before := Play(w, moves[..|moves| - 1]);
      PlayKeeps(w, moves[..|moves| - 1]);
      NextKeeps(before, moves[|moves| - 1]);
      SameSubscription(before, moves[|moves| - 1]);
    }
  }

  lemma {:induction false} SameSubscription(w: World, m: Move)
    ensures Next(w, m).task == w.task && Next(w, m).start == w.start
  {
  }

  lemma {:induction false} Handed(w: World)
    requires Delivering(w)
    ensures w.received + w.inflight == Due(w)[..w.sent]
    ensures |w.received| == w.got && w.cursor == At(w, |w.received|)
  {
    assert Due(w)[..w.got] + Due(w)[w.got..w.sent] == Due(w)[..w.sent];
  }

  lemma {:induction false} SubscribeDelivers(e: Engine, t: TaskId, start: nat)
    requires Good(e) && t in e.db.tasks
    ensures Delivering(Subscribe(e, t, start))
  {
  }

  /**
   Whatever commits, crashes, disconnections and reconnections interleave, the client has at
   every moment exactly the first events past its starting cursor, each once and in order.
   */
  lemma {:induction false} ReceivedIsAPrefix(e: Engine, t: TaskId, start: nat, moves: seq<Move>)
    requires Good(e) && t in e.db.tasks
    ensures var w := Play(Subscribe(e, t, start), moves);
            && w.received + w.inflight <= Due(w)
            && w.cursor == if w.received == [] then start else w.received[|w.received| - 1].id
  {
    SubscribeDelivers(e, t, start);
    PlayKeeps(Subscribe(e, t, start), moves);
    Handed(Play(Subscribe(e, t, start), moves));
  }

  /** A stream that closes by itself saw an ending event of the task and has yielded it. */
  lemma {:induction false} ClosesOnlyAfterTheEnding(e: Engine, t: TaskId, start: nat, moves: seq<Move>)
    requires Good(e) && t in e.db.tasks
    requires Play(Subscribe(e, t, start), moves).stream.Finished?
    ensures var w := Play(Subscribe(e, t, start), moves);
            var final := w.stream.final;
            && Ending(final.kind) && final.task == t && final in w.engine.db.events
            && (final.id > start ==> final in w.received + w.inflight)
  {
    SubscribeDelivers(e, t, start);
    PlayKeeps(Subscribe(e, t, start), moves);
    var w := Play(Subscribe(e, t, start), moves);
    Handed(w);
    FinishedSaw(w);
  }

  lemma {:induction false} FinishedSaw(w: World)
    requires Flows(w) && w.stream.Finished?
    ensures var final := w.stream.final;
            && Ending(final.kind) && final.task == w.task && final in w.engine.db.events
            && (final.id > w.start ==> final in Due(w)[..w.sent])
  {
    AfterMembers(w.engine.db.events, w.task, 0, w.stream.final);
  }

  /** No wake-up is lost: a waiter sleeps on an undelivered event only while its notify is still to come. */
  lemma {:induction false} NoLostWakeup(e: Engine, t: TaskId, start: nat, moves: seq<Move>)
    requires Good(e) && t in e.db.tasks
    ensures var w := Play(Subscribe(e, t, start), moves);
            w.stream.Asleep? && w.owed == 0 ==> Pending(w, w.serverCursor) == [] && w.received + w.inflight == Due(w)
  {
    SubscribeDelivers(e, t, start);
    PlayKeeps(Subscribe(e, t, start), moves);
    var w := Play(Subscribe(e, t, start), moves);
    if w.stream.Asleep? && w.owed == 0 {
      Handed(w);
      PendingAt(w, w.sent);
    }
  }
}
