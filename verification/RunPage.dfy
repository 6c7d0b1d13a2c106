/**
 The run page's effect (`web/client/src/pages/Run.tsx`): one cursor, at most one load of the
 task at a time, and a connection that is retried until the task has ended.

 A load is two steps, the request and its answer, because events, errors and the poll may come
 in between. Event ids are the server's: a load begun after event `n` was received sees a task
 no older than `n`. `floor` and `asOf` record how old a load's answer may be and how old it is.
 */
module RunPage {
  import opened Wrappers

  /** A task as the server returned it: whether it has ended, and the last event it reflects. */
  datatype View = View(ended: bool, asOf: nat)

  /** `connects` counts the loads after which `connect` is still to be called. */
  datatype Page = Page(
    cursor: nat,
    disposed: bool,
    stopped: bool,
    open: bool,
    retry: bool,
    connects: nat,
    loading: bool,
    pending: bool,
    floor: nat,
    shown: Option<View>,
    failed: bool)

  /** The effect as it starts: a remount keeps the cursor, and nothing is shown yet. */
  function Mounted(cursor: nat): Page {
    Ask(Page(cursor, false, false, false, false, 1, false, false, 0, None, false))
  }

  datatype Move =
    | Answer(view: Option<View>)
    | Connect
    | Event(id: nat)
    | Break
    | RetryFires
    | Poll
    | Refresh
    | Dispose

  /** `snapshot` up to its first `await`: a load under way is asked to go round again. */
  function Ask(p: Page): Page {
    if p.loading then p.(pending := true) else p.(loading := true, pending := false, floor := p.cursor)
  }

  /** The rest of the loop's body; an absent view is a request that failed. */
  function Answered(p: Page, view: Option<View>): Page {
    if view.Some? && p.disposed then p
    else
      var q :=
        if view.None? then p.(failed := p.failed || !p.disposed)
        else if view.value.ended then p.(shown := view, failed := false, stopped := true, open := false, retry := false)
        else p.(shown := view, failed := false);
      if q.pending && !q.disposed then q.(pending := false, floor := q.cursor) else q.(loading := false)
  }

  function Connected(p: Page): Page {
    if p.disposed || p.stopped then p else p.(open := true)
  }

  function Step(p: Page, m: Move): Page {
    match m
    case Answer(view) => if p.loading then Answered(p, view) else p
    case Connect => if p.connects > 0 then Connected(p.(connects := p.connects - 1)) else p
    case Event(id) =>
      if !p.open || p.disposed || p.stopped || id <= p.cursor then p else Ask(p.(cursor := id))
    case Break => if !p.open || p.disposed || p.stopped then p else Ask(p.(open := false)).(retry := true)
    case RetryFires => if p.retry then Connected(p.(retry := false)) else p
    case Poll => if p.disposed || p.stopped then p else Ask(p)
    case Refresh => if p.disposed then p else Ask(p.(retry := false)).(connects := p.connects + 1)
    case Dispose => p.(disposed := true, open := false, retry := false)
  }

  function Run(p: Page, moves: seq<Move>): Page {
    if moves == [] then p else Step(Run(p, moves[..|moves| - 1]), moves[|moves| - 1])
  }

  /** The server answers a load with a task at least as recent as what had been received when it began. */
  predicate Honest(p: Page, m: Move) {
    m.Answer? && m.view.Some? && p.loading ==> m.view.value.asOf >= p.floor
  }

  predicate AllHonest(p: Page, moves: seq<Move>) {
    forall i :: 0 <= i < |moves| ==> Honest(Run(p, moves[..i]), moves[i])
  }

  /** A load that may answer with less than has been received will go round again. */
  predicate Sound(p: Page) {
    && (p.loading && !p.disposed && p.floor < p.cursor ==> p.pending)
    && (!p.loading && !p.disposed && !p.failed ==> p.shown.Some? && p.shown.value.asOf >= p.cursor)
    && (p.stopped && !p.disposed ==> p.shown.Some?)
    && (p.stopped || p.disposed ==> !p.open && !p.retry)
    && (!p.stopped && !p.disposed ==> p.open || p.retry || p.connects > 0)
  }

  lemma {:induction false} StepKeeps(p: Page, m: Move)
    requires Sound(p) && Honest(p, m)
    ensures Sound(Step(p, m)) && p.cursor <= Step(p, m).cursor
    ensures p.stopped ==> Step(p, m).stopped && Step(p, m).cursor == p.cursor
  {
  }

  lemma {:induction false} RunKeeps(start: nat, moves: seq<Move>)
    requires AllHonest(Mounted(start), moves)
    ensures Sound(Run(Mounted(start), moves))
    decreases |moves|
  {
    if moves == [] {
    } else {
      var front := moves[..|moves| - 1];
      forall i | 0 <= i < |front|
        ensures Honest(Run(Mounted(start), front[..i]), front[i])
      {
        assert front[..i] == moves[..i];
      }
      RunKeeps(start, front);
      StepKeeps(Run(Mounted(start), front), moves[|moves| - 1]);
    }
  }

  /** Once no load is under way and the last one succeeded, the page shows a task that reflects every event it received. */
  lemma {:induction false} SettlesOnTheLatest(start: nat, moves: seq<Move>)
    requires AllHonest(Mounted(start), moves)
    ensures var p := Run(Mounted(start), moves);
            !p.loading && !p.disposed && !p.failed ==> p.shown.Some? && p.shown.value.asOf >= p.cursor
  {
    RunKeeps(start, moves);
  }

  /** Until the task has ended or the page is left, a connection is open, or about to be opened or retried. */
  lemma {:induction false} KeepsTrying(start: nat, moves: seq<Move>)
    requires AllHonest(Mounted(start), moves)
    ensures var p := Run(Mounted(start), moves);
            p.open || p.retry || p.connects > 0 || p.stopped || p.disposed
    ensures var p := Run(Mounted(start), moves); p.stopped || p.disposed ==> !p.open && !p.retry
  {
    RunKeeps(start, moves);
  }

  class RunEffect {
    var cursor: nat
    var disposed: bool
    var stopped: bool
    var open: bool
    var retry: bool
    var connects: nat
    var loading: bool
    var pending: bool
    ghost var floor: nat
    var shown: Option<View>
    var failed: bool

    ghost function Now(): Page
      reads this
    {
      Page(cursor, disposed, stopped, open, retry, connects, loading, pending, floor, shown, failed)
    }

    ghost predicate Valid()
      reads this
    {
      Sound(Now())
    }

    constructor (start: nat)
      ensures Valid() && Now() == Mounted(start)
    {
      cursor, disposed, stopped, open, retry, connects := start, false, false, false, false, 1;
      loading, pending, floor, shown, failed := true, false, start, None, false;
    }

    /** Afterwards a load begun no earlier than this call is under way or owed. */
    method Snapshot()
      modifies this`loading, this`pending, this`floor
      ensures Now() == Ask(old(Now()))
      ensures loading && (pending || floor == cursor)
    {
      if loading {
        pending := true;
        return;
      }
      loading, pending, floor := true, false, cursor;
    }

    /** The answer to a load: an ended task closes everything, and an owed load begins at once. */
    method Receive(view: Option<View>)
      requires Valid() && loading && (view.Some? ==> view.value.asOf >= floor)
      modifies this
      ensures Valid() && Now() == Step(old(Now()), Answer(view))
      ensures cursor == old(cursor)
      ensures view.Some? && view.value.ended ==> !open && !retry
      ensures !disposed ==> loading == old(pending) && (loading ==> floor == cursor)
      ensures !disposed && !loading && view.Some? ==> shown == view && view.value.asOf >= cursor
    {
      ghost var before := Now();
      StepKeeps(before, Answer(view));
      match view {
        case Some(next) =>
          if disposed {
            return;
          }
          shown, failed := view, false;
          if next.ended {
            stopped, open, retry := true, false, false;
          }
        case None =>
          if !disposed {
            failed := true;
          }
      }
      if pending && !disposed {
        pending, floor := false, cursor;
      } else {
        loading := false;
      }
    }

    /** Opens a connection unless the task has ended or the page is left. */
    method Connect()
      requires Valid() && connects > 0
      modifies this`connects, this`open
      ensures Valid() && Now() == Step(old(Now()), Move.Connect)
      ensures open || stopped || disposed
    {
      ghost var before := Now();
      StepKeeps(before, Move.Connect);
      connects := connects - 1;
      if disposed || stopped {
        return;
      }
      open := true;
    }

    /** A newer event moves the cursor, and a load that covers it is under way or owed; an older one changes nothing. */
    method OnEvent(id: nat)
      requires Valid() && open
      modifies this
      ensures Valid() && Now() == Step(old(Now()), Event(id))
      ensures cursor == if id > old(cursor) then id else old(cursor)
      ensures if id > old(cursor) then loading && (pending || floor == id) else Now() == old(Now())
      ensures shown == old(shown) && open
    {
      ghost var before := Now();
      StepKeeps(before, Event(id));
      if disposed || stopped || id <= cursor {
        return;
      }
      cursor := id;
      Snapshot();
    }

    /** A broken connection is replaced by a scheduled retry from the same cursor. */
    method OnError()
      requires Valid() && open
      modifies this
      ensures Valid() && Now() == Step(old(Now()), Break)
      ensures !open && retry && cursor == old(cursor)
      ensures loading && (pending || floor == cursor)
    {
      ghost var before := Now();
      StepKeeps(before, Break);
      if disposed || stopped {
        return;
      }
      open := false;
      Snapshot();
      retry := true;
    }
  }
}
