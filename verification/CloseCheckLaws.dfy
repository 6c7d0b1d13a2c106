/**
 What every run of the close-check machine keeps: the queue, the schedule of automatic checks,
 and revisions as sound version stamps.
 */
module CloseCheckLaws {
  import opened Wrappers
  import opened Text
  import opened Plans
  import opened Valuation
  import opened Overview
  import opened Portfolio
  import opened CloseChecks

  // ---------------------------------------------------------------- the queue

  /** Only the newest check can be queued or running; it is running exactly while the worker holds it. */
  ghost predicate QueueSound(checks: seq<Check>, phase: Phase) {
    && (forall i :: 0 <= i < |checks| - 1 ==> !Pending(checks[i]))
    && (match phase
        case Working(now, k) => k == |checks| - 1 && checks[k].status == Running
        case Targeted(now, k, day) => k == |checks| - 1 && checks[k].status == Running && checks[k].target == Some(day)
        case _ => checks != [] ==> checks[|checks| - 1].status != Running)
  }

  /** Results are the evaluation of the frozen plans against one quote per stock, for the check's date. */
  ghost predicate GradedBy(c: Check) {
    && c.target.Some? && |c.results| == |c.plans|
    && (forall i :: 0 <= i < |c.plans| ==> c.results[i] == Evaluated(c.plans[i], c.results[i].quote, c.target.value))
    && (forall i, j :: 0 <= i < |c.plans| && 0 <= j < |c.plans| && c.plans[i].data.symbol == c.plans[j].data.symbol ==>
          c.results[i].quote == c.results[j].quote)
    && c.status == StatusOf(c.results)
  }

  ghost predicate Graded(c: Check) {
    forall k: nat {:trigger Unsealed(k)} :: Unsealed(k) ==> GradedBy(c)
  }

  lemma {:induction false} GradedMeans(c: Check)
    ensures Graded(c) <==> GradedBy(c)
  {
    assert Unsealed(0);
  }

  ghost predicate CheckSound(c: Check) {
    && (Pending(c) || c.status == Interrupted ==> c.results == [])
    && (c.status == Completed || c.status == Partial ==> Graded(c))
    && (c.status == Failed ==> c.results == [] || Graded(c))
  }

  ghost predicate ChecksSound(checks: seq<Check>) {
    forall i :: 0 <= i < |checks| ==> CheckSound(checks[i])
  }

  // ---------------------------------------------------------------- the schedule

  /** What must hold of the checks before an automatic check may be added. */
  ghost predicate MayAttempt(before: seq<Check>, now: Moment, attempt: nat) {
    var attempts := Attempts(before, now.day);
    && now.weekday < 5 && now.time >= CUTOFF
    && attempt == |attempts| + 1 <= ATTEMPTS
    && (attempts != [] ==> now.instant - attempts[|attempts| - 1].created.instant >= HALF_HOUR)
    && !HasSuccess(before, now.day)
  }

  ghost predicate AttemptSound(checks: seq<Check>, k: nat)
    requires k < |checks|
  {
    var c := checks[k];
    c.source == Automatic ==> c.target == Some(c.created.day) && MayAttempt(checks[..k], c.created, c.attempt)
  }

  ghost predicate AttemptsSound(checks: seq<Check>) {
    forall k :: 0 <= k < |checks| ==> AttemptSound(checks, k)
  }

  /** What the scheduler has decided still holds when its transaction comes. */
  ghost predicate WantSound(checks: seq<Check>, phase: Phase) {
    phase.Looked? && phase.want.Some? ==>
      phase.want.value.0 == phase.now.day && MayAttempt(checks, phase.now, phase.want.value.1)
  }

  // ---------------------------------------------------------------- revisions

  ghost predicate InHistory(history: History, p: Plan) {
    (p.id, p.revision) in history && history[(p.id, p.revision)] == p.data
  }

  ghost predicate Noted(plans: seq<Held>, history: History) {
    forall i :: 0 <= i < |plans| ==> InHistory(history, plans[i].plan)
  }

  ghost predicate KnownRow(plans: seq<Held>, id: string, r: nat) {
    exists i :: 0 <= i < |plans| && plans[i].plan.id == id && r <= plans[i].plan.revision
  }

  ghost predicate NoneLater(plans: seq<Held>, history: History) {
    forall id, r :: (id, r) in history ==> KnownRow(plans, id, r)
  }

  /** The stored plans are in the history, which knows no later revision. */
  ghost predicate RowsStamped(plans: seq<Held>, history: History) {
    Noted(plans, history) && NoneLater(plans, history)
  }

  ghost predicate SnapshotsStamped(checks: seq<Check>, history: History) {
    forall k, i :: 0 <= k < |checks| && 0 <= i < |checks[k].plans| ==> InHistory(history, checks[k].plans[i])
  }

  ghost predicate SnapshotsValid(checks: seq<Check>) {
    forall k, i :: 0 <= k < |checks| && 0 <= i < |checks[k].plans| ==> ValidData(checks[k].plans[i].data)
  }

  /** The parts that concern checks only. */
  ghost predicate ChecksFine(checks: seq<Check>, phase: Phase, history: History) {
    && QueueSound(checks, phase) && ChecksSound(checks) && AttemptsSound(checks) && WantSound(checks, phase)
    && SnapshotsStamped(checks, history) && SnapshotsValid(checks)
  }

  /** The invariant of every run. */
  ghost predicate AllSound(s: State) {
    && PlansSound(s.db) && FewStocks(s.db) && RowsStamped(s.db.plans, s.history)
    && ChecksFine(s.db.checks, s.phase, s.history)
  }

  ghost predicate Sound(s: State) {
    forall k: nat {:trigger Unsealed(k)} :: Unsealed(k) ==> AllSound(s)
  }

  lemma {:induction false} SoundMeans(s: State)
    ensures Sound(s) <==> AllSound(s)
  {
    assert Unsealed(0);
  }

  // ---------------------------------------------------------------- adding and changing the newest check

  lemma {:induction false} AttemptsSnoc(checks: seq<Check>, c: Check, day: string)
    ensures Attempts(checks + [c], day) == Attempts(checks, day) + (if IsAttempt(c, day) then [c] else [])
  {
    assert (checks + [c])[..|checks|] == checks;
  }

  lemma {:induction false} SuccessSnoc(checks: seq<Check>, c: Check, day: string)
    ensures HasSuccess(checks + [c], day) <==> HasSuccess(checks, day) || (c.target == Some(day) && c.status == Completed)
  {
    var all := checks + [c];
    assert all[|checks|] == c;
    assert forall i :: 0 <= i < |checks| ==> all[i] == checks[i];
  }

  lemma {:induction false} AttemptsSoundSnoc(checks: seq<Check>, c: Check)
    requires AttemptsSound(checks)
    requires c.source == Automatic ==> c.target == Some(c.created.day) && MayAttempt(checks, c.created, c.attempt)
    ensures AttemptsSound(checks + [c])
  {
    var all := checks + [c];
    assert all[..|checks|] == checks;
    forall k | 0 <= k < |all|
      ensures AttemptSound(all, k)
    {
      if k < |checks| {
        assert all[..k] == checks[..k];
        assert AttemptSound(checks, k);
      }
    }
  }

  lemma {:induction false} AttemptsSoundLast(checks: seq<Check>, c: Check)
    requires AttemptsSound(checks) && checks != []
    requires var was := checks[|checks| - 1];
             c.source == was.source && c.attempt == was.attempt && c.created == was.created
    requires c.source == Automatic ==> c.target == checks[|checks| - 1].target
    ensures AttemptsSound(checks[|checks| - 1 := c])
  {
    var all := checks[|checks| - 1 := c];
    forall k | 0 <= k < |all|
      ensures AttemptSound(all, k)
    {
      assert all[..k] == checks[..k];
      assert AttemptSound(checks, k);
    }
  }

  /** Two checks differ at most in how far they have come. */
  ghost predicate SameOrigin(a: Check, b: Check) {
    a.source == b.source && a.attempt == b.attempt && a.created == b.created && (a.source == Automatic ==> a.target == b.target)
  }

  lemma {:induction false} LastReplaced(checks: seq<Check>, c: Check, phase: Phase, after: Phase, history: History)
    requires ChecksFine(checks, phase, history) && checks != [] && !after.Looked?
    requires SameOrigin(checks[|checks| - 1], c) && CheckSound(c)
    requires forall i :: 0 <= i < |c.plans| ==> InHistory(history, c.plans[i]) && ValidData(c.plans[i].data)
    requires match after
             case Working(now, k) => k == |checks| - 1 && c.status == Running
             case Targeted(now, k, day) => k == |checks| - 1 && c.status == Running && c.target == Some(day)
             case _ => c.status != Running
    ensures ChecksFine(checks[|checks| - 1 := c], after, history)
  {
    AttemptsSoundLast(checks, c);
  }

  lemma {:induction false} Appended(checks: seq<Check>, c: Check, phase: Phase, after: Phase, history: History)
    requires ChecksFine(checks, phase, history) && !AnyPending(checks) && c.status == Queued && c.results == [] && c.plans == []
    requires !after.Working? && !after.Targeted? && WantSound(checks + [c], after)
    requires c.source == Automatic ==> c.target == Some(c.created.day) && MayAttempt(checks, c.created, c.attempt)
    ensures ChecksFine(checks + [c], after, history)
  {
    AttemptsSoundSnoc(checks, c);
  }

  // ---------------------------------------------------------------- each step of the queue

  lemma {:induction false} PendingIsLast(checks: seq<Check>, phase: Phase)
    requires QueueSound(checks, phase)
    ensures AnyPending(checks) <==> checks != [] && Pending(checks[|checks| - 1])
    ensures FirstQueued(checks) == if checks != [] && checks[|checks| - 1].status == Queued then Some(|checks| - 1) else None
  {
    if checks == [] {
    } else {
      FirstQueuedIsThere(checks[..|checks| - 1]);
      var front := checks[..|checks| - 1];
      assert forall i :: 0 <= i < |front| ==> front[i] == checks[i];
    }
  }

  lemma {:induction false} ManualStaysOut(checks: seq<Check>, c: Check, phase: Phase)
    requires WantSound(checks, phase) && c.source == Manual && c.status == Queued
    ensures WantSound(checks + [c], phase)
  {
    if phase.Looked? && phase.want.Some? {
      AttemptsSnoc(checks, c, phase.now.day);
      SuccessSnoc(checks, c, phase.now.day);
    }
  }

  lemma {:induction false} NoneHeld(checks: seq<Check>, phase: Phase)
    requires QueueSound(checks, phase) && !AnyPending(checks)
    ensures !phase.Working? && !phase.Targeted?
  {
    PendingIsLast(checks, phase);
  }

  lemma {:induction false} RequestKeeps(db: Db, phase: Phase, history: History, at: Moment)
    requires ChecksFine(db.checks, phase, history)
    ensures ChecksFine(EnqueueManual(db, at).checks, phase, history)
  {
    if !AnyPending(db.checks) {
      NoneHeld(db.checks, phase);
      ManualAppended(db.checks, NewCheck(Manual, None, 0, at), phase, history);
    }
  }

  lemma {:induction false} ManualAppended(checks: seq<Check>, c: Check, phase: Phase, history: History)
    requires ChecksFine(checks, phase, history) && !AnyPending(checks) && !phase.Working? && !phase.Targeted?
    requires c.source == Manual && c.status == Queued && c.results == [] && c.plans == []
    ensures ChecksFine(checks + [c], phase, history)
  {
    ManualStaysOut(checks, c, phase);
    Appended(checks, c, phase, phase, history);
  }

  lemma {:induction false} WantedMay(db: Db, now: Moment, calendar: Option<Calendar>)
    ensures Wanted(db, now, calendar).Some? ==>
              Wanted(db, now, calendar).value.0 == now.day && MayAttempt(db.checks, now, Wanted(db, now, calendar).value.1)
  {
  }

  lemma {:induction false} EnqueueKeeps(s: State)
    requires ChecksFine(s.db.checks, s.phase, s.history)
    ensures ChecksFine(StepEnqueue(s).db.checks, StepEnqueue(s).phase, s.history)
  {
    if s.phase.Looked? && s.phase.want.Some? {
      var (day, attempt) := s.phase.want.value;
      if !AnyPending(s.db.checks) && !AttemptTaken(s.db.checks, day, attempt) {
        Appended(s.db.checks, NewCheck(Automatic, Some(day), attempt, s.phase.now), s.phase, Scheduled(s.phase.now), s.history);
      }
    }
  }

  lemma {:induction false} ActiveRows(plans: seq<Held>, i: nat)
    requires i < |Active(plans)|
    ensures exists k :: 0 <= k < |plans| && plans[k].active && plans[k].plan == Active(plans)[i]
  {
    var n := |plans| - 1;
    var front := Active(plans[..n]);
    if i < |front| {
      ActiveRows(plans[..n], i);
      var k :| 0 <= k < n && plans[..n][k].active && plans[..n][k].plan == front[i];
      assert plans[k].active && plans[k].plan == Active(plans)[i];
    }
  }

  lemma {:induction false} ActiveStamped(db: Db, history: History)
    requires PlansSound(db) && RowsStamped(db.plans, history)
    ensures forall i :: 0 <= i < |Active(db.plans)| ==> InHistory(history, Active(db.plans)[i]) && ValidData(Active(db.plans)[i].data)
  {
    forall i | 0 <= i < |Active(db.plans)|
      ensures InHistory(history, Active(db.plans)[i]) && ValidData(Active(db.plans)[i].data)
    {
      ActiveRows(db.plans, i);
      var k :| 0 <= k < |db.plans| && db.plans[k].active && db.plans[k].plan == Active(db.plans)[i];
      assert RowSound(db.instruments, db.plans[k]);
    }
  }

  lemma {:induction false} ClaimKeeps(s: State)
    requires PlansSound(s.db) && RowsStamped(s.db.plans, s.history) && ChecksFine(s.db.checks, s.phase, s.history)
    ensures ChecksFine(StepClaim(s).db.checks, StepClaim(s).phase, s.history)
  {
    if s.phase.Scheduled? {
      PendingIsLast(s.db.checks, s.phase);
      if FirstQueued(s.db.checks).Some? {
        var n := |s.db.checks| - 1;
        assert CheckSound(s.db.checks[n]);
        ActiveStamped(s.db, s.history);
        var c := s.db.checks[n].(status := Running, plans := Active(s.db.plans));
        LastReplaced(s.db.checks, c, s.phase, Working(s.phase.now, n), s.history);
      }
    }
  }

  lemma {:induction false} ChangeKeeps(s: State, c: Check, after: Phase)
    requires ChecksFine(s.db.checks, s.phase, s.history) && s.db.checks != [] && !after.Looked? && !after.Working?
    requires SameOrigin(s.db.checks[|s.db.checks| - 1], c) && c.plans == s.db.checks[|s.db.checks| - 1].plans && CheckSound(c)
    requires if after.Targeted? then after.check == |s.db.checks| - 1 && c.status == Running && c.target == Some(after.day)
             else c.status != Running
    ensures ChecksFine(s.db.checks[|s.db.checks| - 1 := c], after, s.history)
  {
    LastReplaced(s.db.checks, c, s.phase, after, s.history);
  }

  lemma {:induction false} FailKeeps(s: State, k: nat, code: string)
    requires ChecksFine(s.db.checks, s.phase, s.history)
    requires (s.phase.Working? || s.phase.Targeted?) && s.phase.check == k
    ensures ChecksFine(Fail(s.db, k, code).checks, Idle, s.history)
  {
    var was := s.db.checks[k];
    assert CheckSound(was);
    ChangeKeeps(s, was.(status := Failed, error := Some(code)), Idle);
  }

  lemma {:induction false} TargetKeeps(s: State, calendar: Option<Calendar>, failure: Option<string>)
    requires ChecksFine(s.db.checks, s.phase, s.history)
    ensures var s' := StepTarget(s, calendar, failure); ChecksFine(s'.db.checks, s'.phase, s.history)
  {
    if s.phase.Working? && s.phase.check < |s.db.checks| {
      var k, now := s.phase.check, s.phase.now;
      var day := CompletedDate(now, calendar);
      var was := s.db.checks[k];
      if failure.Some? {
        FailKeeps(s, k, failure.value);
      } else if day.None? {
        FailKeeps(s, k, "calendar_unavailable");
      } else if was.source == Automatic && was.target != Some(day.value) {
        FailKeeps(s, k, "check_date_expired");
      } else {
        assert CheckSound(was);
        ChangeKeeps(s, was.(target := day), Targeted(now, k, day.value));
      }
    }
  }

  lemma {:induction false} ReadingIs(plans: seq<Plan>, quotes: map<string, Option<Quote>>, day: string, i: nat)
    requires i < |plans|
    ensures var r := Readings(plans, quotes, day)[i];
            r.quote == QuoteFor(quotes, plans[i]) && r == Evaluated(plans[i], r.quote, day)
  {
    QuoteIsKept(plans[i], QuoteFor(quotes, plans[i]), day);
  }

  lemma {:induction false} ReadingsAreGraded(c: Check, quotes: map<string, Option<Quote>>, day: string)
    requires c.target == Some(day) && c.results == Readings(c.plans, quotes, day) && c.status == StatusOf(c.results)
    ensures Graded(c)
  {
    GradedMeans(c);
    forall i | 0 <= i < |c.plans|
      ensures c.results[i].quote == QuoteFor(quotes, c.plans[i])
      ensures c.results[i] == Evaluated(c.plans[i], c.results[i].quote, day)
    {
      ReadingIs(c.plans, quotes, day, i);
    }
  }

  lemma {:induction false} CompleteKeeps(s: State, results: seq<Reading>)
    requires ChecksFine(s.db.checks, s.phase, s.history) && s.phase.Targeted? && s.phase.check < |s.db.checks|
    requires Graded(s.db.checks[s.phase.check].(status := StatusOf(results), results := results))
    ensures var s' := StepComplete(s, s.phase.check, results); ChecksFine(s'.db.checks, s'.phase, s.history)
  {
    var c := s.db.checks[s.phase.check].(status := StatusOf(results), results := results);
    ChangeKeeps(s, c, Idle);
  }

  lemma {:induction false} FinishKeeps(s: State, quotes: map<string, Option<Quote>>, failure: Option<string>)
    requires ChecksFine(s.db.checks, s.phase, s.history)
    ensures var s' := StepFinish(s, quotes, failure); ChecksFine(s'.db.checks, s'.phase, s.history)
  {
    if s.phase.Targeted? && s.phase.check < |s.db.checks| {
      var k := s.phase.check;
      if failure.Some? {
        FailKeeps(s, k, failure.value);
      } else {
        var results := Readings(s.db.checks[k].plans, quotes, s.phase.day);
        ReadingsAreGraded(s.db.checks[k].(status := StatusOf(results), results := results), quotes, s.phase.day);
        CompleteKeeps(s, results);
      }
    }
  }

  function Interrupt(c: Check): Check {
    c.(status := Interrupted, error := Some("interrupted"))
  }

  lemma {:induction false} RecoveredIs(checks: seq<Check>, phase: Phase)
    requires QueueSound(checks, phase)
    ensures Recovered(checks) ==
            if checks != [] && checks[|checks| - 1].status == Running
            then checks[|checks| - 1 := Interrupt(checks[|checks| - 1])] else checks
  {
    var r := Recovered(checks);
    forall i | 0 <= i < |checks|
      ensures i < |checks| - 1 ==> r[i] == checks[i]
      ensures i == |checks| - 1 ==> r[i] == if checks[i].status == Running then Interrupt(checks[i]) else checks[i]
    {
      assert i < |checks| - 1 ==> !Pending(checks[i]);
    }
  }

  lemma {:induction false} RestartKeeps(s: State)
    requires ChecksFine(s.db.checks, s.phase, s.history)
    ensures ChecksFine(Recovered(s.db.checks), Idle, s.history)
  {
    RecoveredIs(s.db.checks, s.phase);
    if s.db.checks != [] && s.db.checks[|s.db.checks| - 1].status == Running {
      var n := |s.db.checks| - 1;
      assert CheckSound(s.db.checks[n]);
      ChangeKeeps(s, Interrupt(s.db.checks[n]), Idle);
    }
  }

  // ---------------------------------------------------------------- each step of the plans

  lemma {:induction false} IsNew(plans: seq<Held>, history: History, h: Held)
    requires NoneLater(plans, history)
    requires forall i :: 0 <= i < |plans| && plans[i].plan.id == h.plan.id ==> plans[i].plan.revision < h.plan.revision
    ensures (h.plan.id, h.plan.revision) !in history && Grows(history, Note(history, h))
  {
  }

  lemma {:induction false} StillNoted(plans: seq<Held>, before: History, after: History)
    requires Noted(plans, before) && Grows(before, after)
    ensures Noted(plans, after)
  {
    forall i | 0 <= i < |plans|
      ensures InHistory(after, plans[i].plan)
    {
      assert InHistory(before, plans[i].plan);
    }
  }

  lemma {:induction false} KnownAppended(plans: seq<Held>, h: Held, id: string, r: nat)
    ensures KnownRow(plans, id, r) ==> KnownRow(plans + [h], id, r)
    ensures KnownRow(plans + [h], h.plan.id, h.plan.revision)
  {
    var all := plans + [h];
    assert all[|plans|] == h;
    if KnownRow(plans, id, r) {
      var i :| 0 <= i < |plans| && plans[i].plan.id == id && r <= plans[i].plan.revision;
      assert all[i] == plans[i];
    }
  }

  lemma {:induction false} NotedAppended(plans: seq<Held>, h: Held, noted: History)
    requires Noted(plans, noted) && InHistory(noted, h.plan)
    ensures Noted(plans + [h], noted)
  {
    var all := plans + [h];
    forall i | 0 <= i < |all|
      ensures InHistory(noted, all[i].plan)
    {
      if i < |plans| { assert InHistory(noted, plans[i].plan); }
    }
  }

  lemma {:induction false} RowAppended(plans: seq<Held>, history: History, h: Held)
    requires RowsStamped(plans, history) && forall i :: 0 <= i < |plans| ==> plans[i].plan.id != h.plan.id
    ensures RowsStamped(plans + [h], Note(history, h)) && Grows(history, Note(history, h))
  {
    var all, noted := plans + [h], Note(history, h);
    IsNew(plans, history, h);
    StillNoted(plans, history, noted);
    NotedAppended(plans, h, noted);
    forall id, r | (id, r) in noted
      ensures KnownRow(all, id, r)
    {
      KnownAppended(plans, h, id, r);
    }
  }

  lemma {:induction false} SoundAfter(s: State, db: Db, history: History)
    requires Sound(s) && PlansSound(db) && FewStocks(db) && db.checks == s.db.checks
    requires RowsStamped(db.plans, history) && Grows(s.history, history)
    ensures Sound(State(db, s.phase, history))
  {
    SoundMeans(s);
    SoundMeans(State(db, s.phase, history));
    SnapshotsStay(s.db.checks, s.phase, s.history, history);
  }

  lemma {:induction false} OthersDiffer(plans: seq<Held>, i: nat, k: nat)
    requires DistinctIds(plans) && i < |plans| && k < |plans| && i != k
    ensures plans[k].plan.id != plans[i].plan.id
  {
    if k < i { assert plans[k].plan.id != plans[i].plan.id; }
  }

  lemma {:induction false} ReplacedIsNew(plans: seq<Held>, history: History, i: nat, h: Held)
    requires RowsStamped(plans, history) && DistinctIds(plans) && i < |plans|
    requires h.plan.id == plans[i].plan.id && h.plan.revision == plans[i].plan.revision + 1
    ensures (h.plan.id, h.plan.revision) !in history && Grows(history, Note(history, h))
  {
    forall k: nat | k < |plans| && k != i
      ensures plans[k].plan.id != plans[i].plan.id
    {
      OthersDiffer(plans, i, k);
    }
    IsNew(plans, history, h);
  }

  lemma {:induction false} ReplacedNoted(plans: seq<Held>, i: nat, h: Held, noted: History)
    requires Noted(plans, noted) && i < |plans| && InHistory(noted, h.plan)
    ensures Noted(plans[i := h], noted)
  {
    var all := plans[i := h];
    forall k | 0 <= k < |all|
      ensures InHistory(noted, all[k].plan)
    {
      if k != i { assert InHistory(noted, plans[k].plan); }
    }
  }

  lemma {:induction false} KnownStays(plans: seq<Held>, i: nat, h: Held, id: string, r: nat)
    requires i < |plans| && h.plan.id == plans[i].plan.id && h.plan.revision >= plans[i].plan.revision && KnownRow(plans, id, r)
    ensures KnownRow(plans[i := h], id, r)
  {
    var k :| 0 <= k < |plans| && plans[k].plan.id == id && r <= plans[k].plan.revision;
    var row := plans[i := h][k];
    assert row.plan.id == id && r <= row.plan.revision;
  }

  lemma {:induction false} RowReplaced(plans: seq<Held>, history: History, i: nat, h: Held)
    requires RowsStamped(plans, history) && DistinctIds(plans) && i < |plans|
    requires h.plan.id == plans[i].plan.id && h.plan.revision == plans[i].plan.revision + 1
    ensures RowsStamped(plans[i := h], Note(history, h)) && Grows(history, Note(history, h))
  {
    var all, noted := plans[i := h], Note(history, h);
    ReplacedIsNew(plans, history, i, h);
    StillNoted(plans, history, noted);
    ReplacedNoted(plans, i, h, noted);
    forall id, r | (id, r) in noted
      ensures KnownRow(all, id, r)
    {
      if (id, r) in history {
        KnownStays(plans, i, h, id, r);
      } else {
        assert all[i] == h;
      }
    }
  }

  /** The history only grows. */
  ghost predicate Grows(before: History, after: History) {
    forall key :: key in before ==> key in after && after[key] == before[key]
  }

  lemma {:induction false} SnapshotsStay(checks: seq<Check>, phase: Phase, before: History, after: History)
    requires ChecksFine(checks, phase, before) && Grows(before, after)
    ensures ChecksFine(checks, phase, after)
  {
    forall k, i | 0 <= k < |checks| && 0 <= i < |checks[k].plans|
      ensures InHistory(after, checks[k].plans[i])
    {
      assert InHistory(before, checks[k].plans[i]);
    }
  }

  /** What a step on the plans has to establish. */
  ghost predicate PlanKept(s: State, s': State) {
    Sound(s') && Grows(s.history, s'.history) && s'.db.checks == s.db.checks
  }

  lemma {:induction false} AppendStep(s: State, h: Held)
    requires Sound(s) && FindPlan(s.db.plans, h.plan.id).None? && h.active
    requires RowSound(s.db.instruments, h) && HasRoom(s.db, h.plan.data.symbol)
    ensures PlanKept(s, StepPlan(s, Fine(Append(s.db, h)), h.plan.id))
  {
    SoundMeans(s);
    var after := Append(s.db, h);
    AppendKeeps(s.db, h);
    FindPlanIsThere(s.db.plans, h.plan.id);
    FindLast(s.db.plans, h);
    RowAppended(s.db.plans, s.history, h);
    SoundAfter(s, after, Note(s.history, h));
  }

  lemma {:induction false} FindLast(plans: seq<Held>, h: Held)
    ensures FindPlan(plans + [h], h.plan.id) == Some(|plans|)
  {
  }

  lemma {:induction false} CreateGives(db: Db, id: string, raw: Fields) returns (h: Held)
    requires CreatePlan(db, id, raw).Fine?
    ensures CreatePlan(db, id, raw) == Fine(Append(db, h))
    ensures h.plan.id == id && h.active && RowSound(db.instruments, h) && HasRoom(db, h.plan.data.symbol)
  {
    var d := AcceptedIsNormal(raw);
    TypedReads(d);
    h := Held(Plan(id, 1, d), true);
  }

  lemma {:induction false} CreateStepOf(s: State, result: Checked<Db>, h: Held)
    requires Sound(s) && result == Fine(Append(s.db, h)) && h.active
    requires RowSound(s.db.instruments, h) && HasRoom(s.db, h.plan.data.symbol)
    ensures PlanKept(s, StepCreate(s, result, h.plan.id))
  {
    if FindPlan(s.db.plans, h.plan.id).None? {
      AppendStep(s, h);
    }
  }

  lemma {:induction false} CreateStep(s: State, id: string, raw: Fields)
    requires Sound(s)
    ensures PlanKept(s, StepCreate(s, CreatePlan(s.db, id, raw), id))
  {
    if CreatePlan(s.db, id, raw).Fine? {
      var h := CreateGives(s.db, id, raw);
      CreateStepOf(s, CreatePlan(s.db, id, raw), h);
    }
  }

  lemma {:induction false} FindAfterReplace(plans: seq<Held>, i: nat, h: Held, id: string)
    requires i < |plans| && plans[i].plan.id == h.plan.id
    ensures FindPlan(plans[i := h], id) == FindPlan(plans, id)
  {
    var n := |plans| - 1;
    if i < n {
      assert plans[i := h][..n] == plans[..n][i := h];
      FindAfterReplace(plans[..n], i, h, id);
    } else {
      assert plans[i := h][..n] == plans[..n];
    }
  }

  lemma {:induction false} PlanStepIs(s: State, db: Db, id: string, h: Held)
    requires FindPlan(db.plans, id).Some? && Portfolio.At(db, id) == h
    ensures StepPlan(s, Fine(db), id) == State(db, s.phase, Note(s.history, h))
  {
  }

  lemma {:induction false} AtReplaced(db: Db, id: string, h: Held)
    requires FindPlan(db.plans, id).Some? && h.plan.id == id
    ensures FindPlan(Replace(db, id, h).plans, id).Some? && Portfolio.At(Replace(db, id, h), id) == h
  {
    FindPlanIsThere(db.plans, id);
    FindAfterReplace(db.plans, FindPlan(db.plans, id).value, h, id);
  }

  lemma {:induction false} ReplaceStep(s: State, id: string, h: Held)
    requires Sound(s) && FindPlan(s.db.plans, id).Some? && Portfolio.At(s.db, id).active && ValidData(h.plan.data)
    requires h.plan.id == id && h.plan.data.symbol == Portfolio.At(s.db, id).plan.data.symbol
    requires h.plan.revision == Portfolio.At(s.db, id).plan.revision + 1
    ensures PlanKept(s, StepPlan(s, Fine(Replace(s.db, id, h)), id))
  {
    SoundMeans(s);
    FindPlanIsThere(s.db.plans, id);
    ReplaceKeeps(s.db, id, h);
    RowReplaced(s.db.plans, s.history, FindPlan(s.db.plans, id).value, h);
    AtReplaced(s.db, id, h);
    PlanStepIs(s, Replace(s.db, id, h), id, h);
    SoundAfter(s, Replace(s.db, id, h), Note(s.history, h));
  }

  lemma {:induction false} UpdateGives(db: Db, id: string, revision: nat, patch: Fields) returns (h: Held)
    requires UpdatePlan(db, id, revision, patch).Fine?
    ensures FindPlan(db.plans, id).Some? && UpdatePlan(db, id, revision, patch) == Fine(Replace(db, id, h))
    ensures Portfolio.At(db, id).active && ValidData(h.plan.data) && h.plan.id == id
    ensures h.plan.data.symbol == Portfolio.At(db, id).plan.data.symbol
    ensures h.plan.revision == Portfolio.At(db, id).plan.revision + 1
  {
    GuardPasses(db, id, revision);
    var d := AcceptedIsNormal(Over(Encode(Portfolio.At(db, id).plan.data), patch));
    TypedReads(d);
    h := Held(Plan(id, revision + 1, d), true);
  }

  lemma {:induction false} ReplaceStepOf(s: State, result: Checked<Db>, id: string, h: Held)
    requires Sound(s) && FindPlan(s.db.plans, id).Some? && Portfolio.At(s.db, id).active && ValidData(h.plan.data)
    requires h.plan.id == id && h.plan.data.symbol == Portfolio.At(s.db, id).plan.data.symbol
    requires h.plan.revision == Portfolio.At(s.db, id).plan.revision + 1 && result == Fine(Replace(s.db, id, h))
    ensures PlanKept(s, StepPlan(s, result, id))
  {
    ReplaceStep(s, id, h);
  }

  lemma {:induction false} UpdateStep(s: State, id: string, revision: nat, patch: Fields)
    requires Sound(s)
    ensures PlanKept(s, StepPlan(s, UpdatePlan(s.db, id, revision, patch), id))
  {
    if UpdatePlan(s.db, id, revision, patch).Fine? {
      var h := UpdateGives(s.db, id, revision, patch);
      ReplaceStepOf(s, UpdatePlan(s.db, id, revision, patch), id, h);
    }
  }

  lemma {:induction false} CloseGives(db: Db, id: string, revision: nat) returns (h: Held)
    requires ClosePlan(db, id, revision).Fine? && PlansSound(db)
    ensures FindPlan(db.plans, id).Some? && ClosePlan(db, id, revision) == Fine(Replace(db, id, h))
    ensures Portfolio.At(db, id).active && ValidData(h.plan.data) && h.plan.id == id
    ensures h.plan.data.symbol == Portfolio.At(db, id).plan.data.symbol
    ensures h.plan.revision == Portfolio.At(db, id).plan.revision + 1
  {
    GuardPasses(db, id, revision);
    FindPlanIsThere(db.plans, id);
    var row := Portfolio.At(db, id);
    assert RowSound(db.instruments, row);
    h := Held(Plan(id, revision + 1, row.plan.data), false);
  }

  lemma {:induction false} CloseStep(s: State, id: string, revision: nat)
    requires Sound(s)
    ensures PlanKept(s, StepPlan(s, ClosePlan(s.db, id, revision), id))
  {
    SoundMeans(s);
    if ClosePlan(s.db, id, revision).Fine? {
      var h := CloseGives(s.db, id, revision);
      ReplaceStepOf(s, ClosePlan(s.db, id, revision), id, h);
    }
  }
}
