/**
 Close checks over whole runs: every interleaving of ticks, requests, edits and restarts.
 */
module CloseCheckRuns {
  import opened Wrappers
  import opened Text
  import opened Decimals
  import opened Plans
  import opened Valuation
  import opened Overview
  import opened OverviewLaws
  import opened Concentrations
  import opened Portfolio
  import opened CloseChecks
  import opened CloseCheckLaws

  // ---------------------------------------------------------------- how checks evolve

  /** A check only moves on: ended checks are final, claimed plans frozen, an automatic date fixed. */
  ghost predicate Later(a: Check, b: Check) {
    && SameOrigin(a, b)
    && (!Pending(a) ==> b == a)
    && (a.status == Running ==> b.status != Queued && b.plans == a.plans)
  }

  ghost predicate Evolves(before: seq<Check>, after: seq<Check>) {
    |before| <= |after| && forall i :: 0 <= i < |before| ==> Later(before[i], after[i])
  }

  lemma {:induction false} EvolvesOn(a: seq<Check>, b: seq<Check>, c: seq<Check>)
    requires Evolves(a, b) && Evolves(b, c)
    ensures Evolves(a, c)
  {
    forall i | 0 <= i < |a|
      ensures Later(a[i], c[i])
    {
      assert Later(a[i], b[i]) && Later(b[i], c[i]);
    }
  }

  lemma {:induction false} LastEvolves(checks: seq<Check>, c: Check)
    requires checks != [] && Later(checks[|checks| - 1], c)
    ensures Evolves(checks, checks[|checks| - 1 := c])
  {
  }

  lemma {:induction false} QueueEvolves(s: State, a: Action)
    requires QueueSound(s.db.checks, s.phase) && (a.Request? || a.Enqueue? || a.ClaimCheck? || a.Abort?)
    ensures Evolves(s.db.checks, Step(s, a).db.checks)
  {
    PendingIsLast(s.db.checks, s.phase);
    if a.ClaimCheck? && s.phase.Scheduled? && FirstQueued(s.db.checks).Some? {
      var n := |s.db.checks| - 1;
      LastEvolves(s.db.checks, s.db.checks[n].(status := Running, plans := Active(s.db.plans)));
    }
  }

  lemma {:induction false} FailEvolves(s: State, k: nat, code: string)
    requires QueueSound(s.db.checks, s.phase) && (s.phase.Working? || s.phase.Targeted?) && s.phase.check == k
    ensures Evolves(s.db.checks, Fail(s.db, k, code).checks)
  {
    LastEvolves(s.db.checks, s.db.checks[k].(status := Failed, error := Some(code)));
  }

  lemma {:induction false} TargetEvolves(s: State, calendar: Option<Calendar>, failure: Option<string>)
    requires QueueSound(s.db.checks, s.phase)
    ensures Evolves(s.db.checks, StepTarget(s, calendar, failure).db.checks)
  {
    if s.phase.Working? && s.phase.check < |s.db.checks| {
      var k := s.phase.check;
      var day := CompletedDate(s.phase.now, calendar);
      if failure.Some? {
        FailEvolves(s, k, failure.value);
      } else if day.None? {
        FailEvolves(s, k, "calendar_unavailable");
      } else if s.db.checks[k].source == Automatic && s.db.checks[k].target != Some(day.value) {
        FailEvolves(s, k, "check_date_expired");
      } else {
        LastEvolves(s.db.checks, s.db.checks[k].(target := day));
      }
    }
  }

  lemma {:induction false} CompleteEvolves(s: State, results: seq<Reading>)
    requires QueueSound(s.db.checks, s.phase) && s.phase.Targeted?
    ensures Evolves(s.db.checks, StepComplete(s, s.phase.check, results).db.checks)
    ensures s.phase.check < |StepComplete(s, s.phase.check, results).db.checks|
    ensures !Pending(StepComplete(s, s.phase.check, results).db.checks[s.phase.check])
  {
    var c := s.db.checks[s.phase.check].(status := StatusOf(results), results := results);
    LastEvolves(s.db.checks, c);
  }

  lemma {:induction false} FinishEvolves(s: State, quotes: map<string, Option<Quote>>, failure: Option<string>)
    requires QueueSound(s.db.checks, s.phase)
    ensures Evolves(s.db.checks, StepFinish(s, quotes, failure).db.checks)
  {
    if s.phase.Targeted? && s.phase.check < |s.db.checks| {
      if failure.Some? {
        FailEvolves(s, s.phase.check, failure.value);
      } else {
        CompleteEvolves(s, Readings(s.db.checks[s.phase.check].plans, quotes, s.phase.day));
      }
    }
  }

  lemma {:induction false} RestartEvolves(s: State)
    requires QueueSound(s.db.checks, s.phase)
    ensures Evolves(s.db.checks, Recovered(s.db.checks))
  {
  }

  // ---------------------------------------------------------------- every step

  lemma {:induction false} WatchKeeps(s: State, a: Action)
    requires PlansSound(s.db) && FewStocks(s.db)
    requires a.UpsertInstrument? || a.Watch? || a.Rewatch? || a.Unwatch? || a.Configure?
    ensures PlansSound(Step(s, a).db) && FewStocks(Step(s, a).db)
  {
    match a {
      case UpsertInstrument(symbol) => UpsertKeeps(s.db, symbol);
      case Watch(symbol, reason) => AddWatchKeeps(s.db, symbol, reason);
      case Rewatch(symbol, reason) => UpdateWatchKeeps(s.db, symbol, reason);
      case Unwatch(symbol) => RemoveWatchKeeps(s.db, symbol);
      case Configure(settings) => ConfigureKeeps(s.db, settings);
      case _ =>
    }
  }

  lemma {:induction false} WatchStep(s: State, a: Action)
    requires Sound(s) && (a.UpsertInstrument? || a.Watch? || a.Rewatch? || a.Unwatch? || a.Configure?)
    ensures Kept(s, Step(s, a))
  {
    SoundMeans(s);
    WatchKeeps(s, a);
    WatchFrame(s, a);
    assert Grows(s.history, s.history);
    SoundAfter(s, Step(s, a).db, s.history);
  }

  lemma {:induction false} WatchFrame(s: State, a: Action)
    requires a.UpsertInstrument? || a.Watch? || a.Rewatch? || a.Unwatch? || a.Configure?
    ensures var s' := Step(s, a);
            s'.history == s.history && s'.phase == s.phase && s'.db.checks == s.db.checks && s'.db.plans == s.db.plans
  {
  }

  lemma {:induction false} ConfigureKeeps(db: Db, raw: SettingsPatch)
    requires PlansSound(db) && FewStocks(db)
    ensures PlansSound(Or(db, UpdateSettings(db, raw))) && FewStocks(Or(db, UpdateSettings(db, raw)))
  {
    UpdateSettingsKeeps(db, raw);
  }

  lemma {:induction false} SoundChecks(s: State, checks: seq<Check>, phase: Phase)
    requires Sound(s) && ChecksFine(checks, phase, s.history)
    ensures Sound(s.(db := s.db.(checks := checks), phase := phase))
  {
    SoundMeans(s);
    SoundMeans(s.(db := s.db.(checks := checks), phase := phase));
    assert StocksOf(s.db.(checks := checks)) == StocksOf(s.db);
  }

  /** What a step of the queue or the worker has to establish. */
  ghost predicate Kept(s: State, s': State) {
    Sound(s') && Grows(s.history, s'.history) && Evolves(s.db.checks, s'.db.checks)
  }

  lemma {:induction false} RequestFrame(s: State, at: Moment)
    ensures Step(s, Request(at)) == s.(db := s.db.(checks := EnqueueManual(s.db, at).checks))
  {
  }

  lemma {:induction false} RequestStep(s: State, at: Moment)
    requires Sound(s)
    ensures Kept(s, Step(s, Request(at)))
  {
    SoundMeans(s);
    RequestKeeps(s.db, s.phase, s.history, at);
    SoundChecks(s, EnqueueManual(s.db, at).checks, s.phase);
    QueueEvolves(s, Request(at));
    RequestFrame(s, at);
  }

  lemma {:induction false} LookFine(s: State, at: Moment, want: Option<(string, nat)>)
    requires ChecksFine(s.db.checks, s.phase, s.history) && s.phase.Idle?
    requires want.Some? ==> want.value.0 == at.day && MayAttempt(s.db.checks, at, want.value.1)
    ensures ChecksFine(s.db.checks, Looked(at, want), s.history)
  {
  }

  lemma {:induction false} LookStepOf(s: State, at: Moment, want: Option<(string, nat)>)
    requires Sound(s)
    requires want.Some? ==> want.value.0 == at.day && MayAttempt(s.db.checks, at, want.value.1)
    ensures Kept(s, StepLook(s, at, want))
  {
    UnchangedEvolve(s.db.checks);
    if s.phase.Idle? {
      SoundMeans(s);
      LookFine(s, at, want);
      SoundChecks(s, s.db.checks, Looked(at, want));
    }
  }

  lemma {:induction false} LookStep(s: State, at: Moment, calendar: Option<Calendar>)
    requires Sound(s)
    ensures Kept(s, StepLook(s, at, Wanted(s.db, at, calendar)))
  {
    WantedMay(s.db, at, calendar);
    LookStepOf(s, at, Wanted(s.db, at, calendar));
  }

  lemma {:induction false} EnqueueFrame(s: State)
    ensures var s' := StepEnqueue(s); s' == s.(db := s.db.(checks := s'.db.checks), phase := s'.phase)
  {
  }

  lemma {:induction false} EnqueueStep(s: State)
    requires Sound(s)
    ensures Kept(s, StepEnqueue(s))
  {
    SoundMeans(s);
    EnqueueKeeps(s);
    QueueEvolves(s, Enqueue);
    EnqueueFrame(s);
    SoundChecks(s, StepEnqueue(s).db.checks, StepEnqueue(s).phase);
  }

  lemma {:induction false} ClaimFrame(s: State)
    ensures var s' := StepClaim(s); s' == s.(db := s.db.(checks := s'.db.checks), phase := s'.phase)
  {
  }

  lemma {:induction false} ClaimStep(s: State)
    requires Sound(s)
    ensures Kept(s, StepClaim(s))
  {
    SoundMeans(s);
    ClaimKeeps(s);
    QueueEvolves(s, ClaimCheck);
    ClaimFrame(s);
    SoundChecks(s, StepClaim(s).db.checks, StepClaim(s).phase);
  }

  lemma {:induction false} AbortStep(s: State)
    requires Sound(s)
    ensures Kept(s, Step(s, Abort))
  {
    SoundMeans(s);
    QueueEvolves(s, Abort);
    if s.phase.Looked? || s.phase.Scheduled? {
      SoundChecks(s, s.db.checks, Idle);
    }
  }

  lemma {:induction false} TargetStep(s: State, calendar: Option<Calendar>, failure: Option<string>)
    requires Sound(s)
    ensures Kept(s, StepTarget(s, calendar, failure))
  {
    SoundMeans(s);
    TargetKeeps(s, calendar, failure);
    TargetEvolves(s, calendar, failure);
    TargetFrame(s, calendar, failure);
    var s' := StepTarget(s, calendar, failure);
    SoundChecks(s, s'.db.checks, s'.phase);
  }

  lemma {:induction false} TargetFrame(s: State, calendar: Option<Calendar>, failure: Option<string>)
    ensures var s' := StepTarget(s, calendar, failure); s' == s.(db := s.db.(checks := s'.db.checks), phase := s'.phase)
  {
  }

  lemma {:induction false} FinishStep(s: State, quotes: map<string, Option<Quote>>, failure: Option<string>)
    requires Sound(s)
    ensures Kept(s, StepFinish(s, quotes, failure))
  {
    SoundMeans(s);
    FinishKeeps(s, quotes, failure);
    FinishEvolves(s, quotes, failure);
    FinishFrame(s, quotes, failure);
    var s' := StepFinish(s, quotes, failure);
    SoundChecks(s, s'.db.checks, s'.phase);
  }

  lemma {:induction false} CompleteFrame(db: Db, k: nat, results: seq<Reading>, status: Status)
    ensures Or(db, Complete(db, k, results, status)) == db.(checks := Or(db, Complete(db, k, results, status)).checks)
  {
  }

  lemma {:induction false} FinishFrame(s: State, quotes: map<string, Option<Quote>>, failure: Option<string>)
    ensures var s' := StepFinish(s, quotes, failure); s' == s.(db := s.db.(checks := s'.db.checks), phase := s'.phase)
  {
    if s.phase.Targeted? && s.phase.check < |s.db.checks| && failure.None? {
      CompleteIsFramed(s, s.phase.check, Readings(s.db.checks[s.phase.check].plans, quotes, s.phase.day));
    }
  }

  lemma {:induction false} CompleteIsFramed(s: State, k: nat, results: seq<Reading>)
    ensures var s' := StepComplete(s, k, results); s' == s.(db := s.db.(checks := s'.db.checks), phase := s'.phase)
  {
    CompleteFrame(s.db, k, results, StatusOf(results));
  }

  lemma {:induction false} RestartStep(s: State)
    requires Sound(s)
    ensures Kept(s, Step(s, Restart))
  {
    SoundMeans(s);
    RestartKeeps(s);
    RestartEvolves(s);
    SoundChecks(s, Recovered(s.db.checks), Idle);
    assert Step(s, Restart) == s.(db := s.db.(checks := Recovered(s.db.checks)), phase := Idle);
  }

  lemma {:induction false} UnchangedEvolve(checks: seq<Check>)
    ensures Evolves(checks, checks)
  {
  }

  lemma {:induction false} PlanKeepsAll(s: State, s': State)
    requires PlanKept(s, s')
    ensures Kept(s, s')
  {
    UnchangedEvolve(s.db.checks);
  }

  /** Every step keeps the invariant, forgets nothing it has stored, and only moves checks on. */
  lemma {:induction false} StepKeeps(s: State, a: Action)
    requires Sound(s)
    ensures Kept(s, Step(s, a))
  {
    if a.Create? {
      CreateKept(s, a);
    } else if a.Update? {
      UpdateKept(s, a);
    } else if a.Close? {
      CloseKept(s, a);
    } else {
      OtherStep(s, a);
    }
  }

  lemma {:induction false} CreateKept(s: State, a: Action)
    requires Sound(s) && a.Create?
    ensures Kept(s, Step(s, a))
  {
    CreateStep(s, a.id, a.raw);
    PlanKeepsAll(s, Step(s, a));
  }

  lemma {:induction false} UpdateKept(s: State, a: Action)
    requires Sound(s) && a.Update?
    ensures Kept(s, Step(s, a))
  {
    UpdateStep(s, a.id, a.revision, a.patch);
    PlanKeepsAll(s, Step(s, a));
  }

  lemma {:induction false} CloseKept(s: State, a: Action)
    requires Sound(s) && a.Close?
    ensures Kept(s, Step(s, a))
  {
    CloseStep(s, a.id, a.revision);
    PlanKeepsAll(s, Step(s, a));
  }

  lemma {:induction false} OtherStep(s: State, a: Action)
    requires Sound(s) && !a.Create? && !a.Update? && !a.Close?
    ensures Kept(s, Step(s, a))
  {
    match a {
      case Target(calendar, failure) => TargetStep(s, calendar, failure);
      case Finish(quotes, failure) => FinishStep(s, quotes, failure);
      case Restart => RestartStep(s);
      case Request(at) => RequestStep(s, at);
      case Look(at, calendar) => LookStep(s, at, calendar);
      case Enqueue => EnqueueStep(s);
      case ClaimCheck => ClaimStep(s);
      case Abort => AbortStep(s);
      case _ => WatchStep(s, a);
    }
  }

  lemma {:induction false} StartIsSound()
    ensures Sound(START)
  {
    SoundMeans(START);
    assert StocksOf(START.db) == {};
  }

  /** Every run from a sound state keeps the invariant; history and checks only evolve. */
  lemma {:induction false} RunKeeps(s: State, actions: seq<Action>)
    requires Sound(s)
    ensures Sound(Run(s, actions)) && Grows(s.history, Run(s, actions).history)
    ensures Evolves(s.db.checks, Run(s, actions).db.checks)
    decreases |actions|
  {
    if actions == [] {
    } else {
      var front, a := actions[..|actions| - 1], actions[|actions| - 1];
      RunKeeps(s, front);
      StepKeeps(Run(s, front), a);
      EvolvesOn(s.db.checks, Run(s, front).db.checks, Run(s, actions).db.checks);
    }
  }

  // ---------------------------------------------------------------- the queue over runs

  /** At every moment at most one check is queued or running. */
  lemma {:induction false} OnePending(actions: seq<Action>, i: nat, j: nat)
    requires i < |Run(START, actions).db.checks| && j < |Run(START, actions).db.checks|
    requires Pending(Run(START, actions).db.checks[i]) && Pending(Run(START, actions).db.checks[j])
    ensures i == j
  {
    SoundMeans(Run(START, actions));
    StartIsSound();
    RunKeeps(START, actions);
  }

  /** An ended check never changes again. */
  lemma {:induction false} EndedForever(actions: seq<Action>, more: seq<Action>, k: nat)
    requires k < |Run(START, actions).db.checks| && !Pending(Run(START, actions).db.checks[k])
    ensures var later := Run(Run(START, actions), more).db.checks;
            k < |later| && later[k] == Run(START, actions).db.checks[k]
  {
    StartIsSound();
    RunKeeps(START, actions);
    RunKeeps(Run(START, actions), more);
  }

  lemma {:induction false} FailEnds(checks: seq<Check>, k: nat, code: string)
    requires k < |checks| && checks[k].status == Running
    ensures k < |Failing(checks, k, code)| && !Pending(Failing(checks, k, code)[k])
  {
  }

  lemma {:induction false} TargetEnds(s: State, calendar: Option<Calendar>, failure: Option<string>)
    requires QueueSound(s.db.checks, s.phase) && s.phase.Working?
    ensures var s' := StepTarget(s, calendar, failure);
            && s.phase.check < |s'.db.checks|
            && (if s'.phase.Targeted? then s'.phase.check == s.phase.check
                else s'.phase == Idle && !Pending(s'.db.checks[s.phase.check]))
  {
    var k := s.phase.check;
    var day := CompletedDate(s.phase.now, calendar);
    if failure.Some? {
      FailEnds(s.db.checks, k, failure.value);
    } else if day.None? {
      FailEnds(s.db.checks, k, "calendar_unavailable");
    } else if s.db.checks[k].source == Automatic && s.db.checks[k].target != Some(day.value) {
      FailEnds(s.db.checks, k, "check_date_expired");
    }
  }

  lemma {:induction false} FinishEnds(s: State, quotes: map<string, Option<Quote>>, failure: Option<string>)
    requires QueueSound(s.db.checks, s.phase) && s.phase.Targeted?
    ensures var s' := StepFinish(s, quotes, failure);
            s'.phase == Idle && s.phase.check < |s'.db.checks| && !Pending(s'.db.checks[s.phase.check])
  {
    if failure.Some? {
      FailEnds(s.db.checks, s.phase.check, failure.value);
    } else {
      CompleteEvolves(s, Readings(s.db.checks[s.phase.check].plans, quotes, s.phase.day));
    }
  }

  /** A step of anyone but the worker: a request, or an edit of plans, watchlist or settings. */
  predicate Aside(a: Action) {
    a.UpsertInstrument? || a.Watch? || a.Rewatch? || a.Unwatch? || a.Configure? ||
    a.Create? || a.Update? || a.Close? || a.Request?
  }

  predicate AllAside(actions: seq<Action>) {
    forall i :: 0 <= i < |actions| ==> Aside(actions[i])
  }

  lemma {:induction false} AsideKeepsPhase(s: State, a: Action)
    requires Aside(a)
    ensures Step(s, a).phase == s.phase
  {
  }

  lemma {:induction false} OthersKeepPhase(s: State, actions: seq<Action>)
    requires AllAside(actions)
    ensures Run(s, actions).phase == s.phase
    decreases |actions|
  {
    if actions == [] {
    } else {
      OthersKeepPhase(s, actions[..|actions| - 1]);
      AsideKeepsPhase(Run(s, actions[..|actions| - 1]), actions[|actions| - 1]);
    }
  }

  /** Where a tick stands on check `k` once it has had its target: holding it, or done with it. */
  ghost predicate Past(s: State, k: nat) {
    && k < |s.db.checks|
    && (if s.phase.Targeted? then s.phase.check == k else s.phase == Idle && !Pending(s.db.checks[k]))
  }

  lemma {:induction false} TargetPast(s: State, calendar: Option<Calendar>, failure: Option<string>)
    requires Sound(s) && s.phase.Working?
    ensures Past(Step(s, Target(calendar, failure)), s.phase.check)
  {
    SoundMeans(s);
    TargetEnds(s, calendar, failure);
  }

  lemma {:induction false} OthersKeepPast(s: State, actions: seq<Action>, k: nat)
    requires Sound(s) && Past(s, k) && AllAside(actions)
    ensures Past(Run(s, actions), k)
  {
    OthersKeepPhase(s, actions);
    RunKeeps(s, actions);
    assert Later(s.db.checks[k], Run(s, actions).db.checks[k]);
  }

  lemma {:induction false} PastEnds(s: State, k: nat, quotes: map<string, Option<Quote>>, later: Option<string>)
    requires Sound(s) && Past(s, k)
    ensures var s2 := Step(s, Finish(quotes, later));
            s2.phase == Idle && k < |s2.db.checks| && !Pending(s2.db.checks[k])
  {
    SoundMeans(s);
    TickEnds(s, k, quotes, later);
  }

  /**
   The tick that claimed a check ends it, whatever calendar, quotes and failures it meets and
   whatever requests and edits come before and between its transactions.
   */
  lemma {:induction false} ClaimedEnds(
      actions: seq<Action>, before: seq<Action>, calendar: Option<Calendar>, failure: Option<string>,
      between: seq<Action>, quotes: map<string, Option<Quote>>, later: Option<string>)
    requires Run(START, actions).phase.Working? && AllAside(before) && AllAside(between)
    ensures var s := Run(START, actions);
            var targeted := Step(Run(s, before), Target(calendar, failure));
            var s2 := Step(Run(targeted, between), Finish(quotes, later));
            s2.phase == Idle && s.phase.check < |s2.db.checks| && !Pending(s2.db.checks[s.phase.check])
  {
    var s := Run(START, actions);
    var s1 := Run(s, before);
    var targeted := Step(s1, Target(calendar, failure));
    var k := s.phase.check;
    StartIsSound();
    RunKeeps(START, actions);
    RunKeeps(s, before);
    OthersKeepPhase(s, before);
    TargetPast(s1, calendar, failure);
    StepKeeps(s1, Target(calendar, failure));
    OthersKeepPast(targeted, between, k);
    RunKeeps(targeted, between);
    PastEnds(Run(targeted, between), k, quotes, later);
  }

  lemma {:induction false} TickEnds(s: State, k: nat, quotes: map<string, Option<Quote>>, later: Option<string>)
    requires QueueSound(s.db.checks, s.phase) && k < |s.db.checks|
    requires if s.phase.Targeted? then s.phase.check == k else s.phase == Idle && !Pending(s.db.checks[k])
    ensures var s2 := StepFinish(s, quotes, later);
            s2.phase == Idle && k < |s2.db.checks| && !Pending(s2.db.checks[k])
  {
    if s.phase.Targeted? {
      FinishEnds(s, quotes, later);
    }
  }

  /** How many of a list of readings are valid decides its status. */
  lemma {:induction false} StatusMeans(rs: seq<Reading>)
    ensures StatusOf(rs) == Completed <==> forall i :: 0 <= i < |rs| ==> rs[i].quality == Valid
    ensures StatusOf(rs) == Failed <==> rs != [] && forall i :: 0 <= i < |rs| ==> rs[i].quality != Valid
    ensures StatusOf(rs) == Completed || StatusOf(rs) == Partial || StatusOf(rs) == Failed
  {
    var n := CountValid(rs);
    if rs != [] && n == |rs| {
      assert rs[0].quality == Valid;
    }
  }

  /**
   In every run a stored list of results is the pointwise evaluation of the snapshot frozen at
   the claim, for the check's date and with one quote per stock; the check is completed exactly
   when all of them are valid and failed exactly when none is. Any other check has no results.
   */
  lemma {:induction false} ResultsAreGraded(actions: seq<Action>, k: nat)
    requires k < |Run(START, actions).db.checks|
    ensures var c := Run(START, actions).db.checks[k];
            if c.status == Completed || c.status == Partial || c.results != [] then
              && c.target.Some? && |c.results| == |c.plans|
              && (forall i :: 0 <= i < |c.plans| ==> c.results[i] == Evaluated(c.plans[i], c.results[i].quote, c.target.value))
              && (forall i, j :: 0 <= i < |c.plans| && 0 <= j < |c.plans| && c.plans[i].data.symbol == c.plans[j].data.symbol ==>
                    c.results[i].quote == c.results[j].quote)
              && (c.status == Completed <==> forall i :: 0 <= i < |c.results| ==> c.results[i].quality == Valid)
              && (c.status == Failed <==> c.results != [] && forall i :: 0 <= i < |c.results| ==> c.results[i].quality != Valid)
            else
              c.results == []
  {
    SoundMeans(Run(START, actions));
    StartIsSound();
    RunKeeps(START, actions);
    var c := Run(START, actions).db.checks[k];
    assert CheckSound(c);
    GradedMeans(c);
    StatusMeans(c.results);
  }

  // ---------------------------------------------------------------- the automatic schedule

  lemma {:induction false} AttemptsPrefix(checks: seq<Check>, day: string)
    requires AttemptsSound(checks) && checks != []
    ensures AttemptsSound(checks[..|checks| - 1])
  {
    var front := checks[..|checks| - 1];
    forall k | 0 <= k < |front|
      ensures AttemptSound(front, k)
    {
      assert front[..k] == checks[..k];
      assert AttemptSound(checks, k);
    }
  }

  /** The automatic checks of one day: numbered from one, at most three, half an hour apart, in the evening of a weekday. */
  ghost predicate DayScheduled(attempts: seq<Check>, day: string) {
    && |attempts| <= ATTEMPTS
    && (forall i :: 0 <= i < |attempts| ==>
          && attempts[i].attempt == i + 1 && attempts[i].target == Some(day) && attempts[i].created.day == day
          && attempts[i].created.weekday < 5 && attempts[i].created.time >= CUTOFF)
    && (forall i :: 0 < i < |attempts| ==> attempts[i].created.instant - attempts[i - 1].created.instant >= HALF_HOUR)
  }

  lemma {:induction false} AttemptsAreScheduled(checks: seq<Check>, day: string)
    requires AttemptsSound(checks)
    ensures DayScheduled(Attempts(checks, day), day)
  {
    if checks == [] {
    } else {
      var n := |checks| - 1;
      AttemptsPrefix(checks, day);
      AttemptsAreScheduled(checks[..n], day);
      assert AttemptSound(checks, n);
    }
  }

  /** After any run and for any clock, each day's automatic checks keep to the schedule. */
  lemma {:induction false} ScheduleIsKept(actions: seq<Action>, day: string)
    ensures DayScheduled(Attempts(Run(START, actions).db.checks, day), day)
  {
    SoundMeans(Run(START, actions));
    StartIsSound();
    RunKeeps(START, actions);
    AttemptsAreScheduled(Run(START, actions).db.checks, day);
  }

  /** No automatic check follows a completed check for its day. */
  lemma {:induction false} NoneAfterSuccess(actions: seq<Action>, i: nat, j: nat)
    requires i < j < |Run(START, actions).db.checks|
    requires Run(START, actions).db.checks[j].source == Automatic
    ensures var checks := Run(START, actions).db.checks;
            checks[j].target.Some? && !(checks[i].target == checks[j].target && checks[i].status == Completed)
  {
    SoundMeans(Run(START, actions));
    StartIsSound();
    RunKeeps(START, actions);
    var checks := Run(START, actions).db.checks;
    assert AttemptSound(checks, j);
    assert checks[..j][i] == checks[i];
  }

  /** An automatic check's results are for the day it was scheduled for. */
  lemma {:induction false} AutomaticKeepsItsDay(actions: seq<Action>, k: nat, i: nat)
    requires k < |Run(START, actions).db.checks| && Run(START, actions).db.checks[k].source == Automatic
    requires i < |Run(START, actions).db.checks[k].results|
    ensures Run(START, actions).db.checks[k].results[i].target == Run(START, actions).db.checks[k].created.day
  {
    SoundMeans(Run(START, actions));
    StartIsSound();
    RunKeeps(START, actions);
    var checks := Run(START, actions).db.checks;
    var c := checks[k];
    assert AttemptSound(checks, k) && CheckSound(c);
    GradedMeans(c);
    QuoteIsKept(c.plans[i], c.results[i].quote, c.target.value);
  }
}
