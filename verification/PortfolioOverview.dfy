/**
 The overview a client sees: plans, latest check and settings are read in three separate
 transactions, and still a complete summary is about the plans as they were read. Also what
 the completed date means.
 */
module PortfolioOverview {
  import opened Wrappers
  import opened Text
  import opened Decimals
  import opened Plans
  import opened Valuation
  import opened Overview
  import opened OverviewLaws
  import opened Concentrations
  import opened Portfolio
  import opened CloseChecks
  import opened CloseCheckLaws
  import opened CloseCheckRuns
  import Money
  import Percent

  // ---------------------------------------------------------------- the completed date

  lemma {:induction false} CandidatesMean(dates: seq<string>, now: Moment, d: string)
    ensures d in Candidates(dates, now) <==> d in dates && Ended(d, now)
  {
    if dates == [] {
    } else {
      var front := dates[..|dates| - 1];
      CandidatesMean(front, now, d);
      assert dates == front + [dates[|dates| - 1]];
    }
  }

  lemma {:induction false} GreatestIs(dates: seq<string>)
    requires dates != []
    ensures Greatest(dates) in dates && forall i :: 0 <= i < |dates| ==> Leq(dates[i], Greatest(dates))
  {
    var n := |dates| - 1;
    LeqTotal(dates[n], dates[n]);
    if n == 0 {
    } else {
      var front := dates[..n];
      GreatestIs(front);
      LeqTotal(dates[n], Greatest(front));
      forall i | 0 <= i < n
        ensures Leq(dates[i], Greatest(dates))
      {
        assert dates[i] == front[i];
        if !Leq(dates[n], Greatest(front)) { LeqTransitive(dates[i], Greatest(front), dates[n]); }
      }
    }
  }

  /** The completed date is the latest trading day whose cutoff has passed. */
  lemma {:induction false} CompletedIsLatest(now: Moment, calendar: Calendar)
    ensures var d := CompletedDate(now, Some(calendar));
            if d.Some? then
              && Covered(calendar, now) && d.value in calendar.dates && Ended(d.value, now)
              && forall e :: e in calendar.dates && Ended(e, now) ==> Leq(e, d.value)
            else !Covered(calendar, now) || forall e :: e in calendar.dates ==> !Ended(e, now)
  {
    var found := Candidates(calendar.dates, now);
    forall e
      ensures e in found <==> e in calendar.dates && Ended(e, now)
    {
      CandidatesMean(calendar.dates, now, e);
    }
    if found != [] {
      GreatestIs(found);
    } else {
      assert forall e :: e !in found;
    }
  }

  /** Local time, as a date and a time of day. */
  predicate NotAfter(a: Moment, b: Moment) {
    Less(a.day, b.day) || (a.day == b.day && a.time <= b.time)
  }

  /** It never goes back while local time goes on and the calendar stays. */
  lemma {:induction false} CompletedIsMonotone(a: Moment, b: Moment, calendar: Calendar)
    requires NotAfter(a, b)
    requires CompletedDate(a, Some(calendar)).Some? && CompletedDate(b, Some(calendar)).Some?
    ensures Leq(CompletedDate(a, Some(calendar)).value, CompletedDate(b, Some(calendar)).value)
  {
    CompletedIsLatest(a, calendar);
    CompletedIsLatest(b, calendar);
    var d := CompletedDate(a, Some(calendar)).value;
    if Less(d, a.day) && Less(a.day, b.day) {
      LeqTransitive(d, a.day, b.day);
      LeqTotal(d, a.day);
      LeqTotal(a.day, b.day);
    }
    assert Ended(d, b);
  }

  // ---------------------------------------------------------------- the overview

  /** The results an overview uses. */
  function LatestResults(checks: seq<Check>): seq<Reading> {
    var c := Latest(checks);
    if c.Some? && (c.value.status == Completed || c.value.status == Partial || c.value.status == Failed)
    then c.value.results else []
  }

  lemma {:induction false} LatestIsThere(checks: seq<Check>)
    ensures Latest(checks).Some? ==> Latest(checks).value in checks
    ensures Latest(checks).None? <==> checks == []
  {
    if checks == [] {
    } else {
      LatestIsThere(checks[..|checks| - 1]);
    }
  }

  /** Results are faithful evaluations of plans in the history, with one quote per stock. */
  ghost predicate Trustworthy(rs: seq<Reading>, history: History) {
    && AllFaithful(rs)
    && (forall i :: 0 <= i < |rs| ==> InHistory(history, rs[i].snapshot))
    && (forall i :: 0 <= i < |rs| ==> rs[i].planId == rs[i].snapshot.id && rs[i].revision == rs[i].snapshot.revision)
    && (forall i, j :: 0 <= i < |rs| && 0 <= j < |rs| && SymbolOf(rs[i]) == SymbolOf(rs[j]) ==> rs[i].quote == rs[j].quote)
  }

  lemma {:induction false} GradedIsTrustworthy(c: Check, history: History)
    requires Graded(c)
    requires forall i :: 0 <= i < |c.plans| ==> InHistory(history, c.plans[i]) && ValidData(c.plans[i].data)
    ensures Trustworthy(c.results, history)
  {
    GradedMeans(c);
    forall i | 0 <= i < |c.results|
      ensures c.results[i].snapshot == c.plans[i] && c.results[i].planId == c.plans[i].id
      ensures c.results[i].revision == c.plans[i].revision && c.results[i].target == c.target.value
      ensures Faithful(c.results[i])
    {
      QuoteIsKept(c.plans[i], c.results[i].quote, c.target.value);
      FaithfulMeans(c.results[i]);
    }
  }

  lemma {:induction false} LatestIsTrustworthy(s: State)
    requires Sound(s)
    ensures Trustworthy(LatestResults(s.db.checks), s.history)
  {
    SoundMeans(s);
    LatestIsThere(s.db.checks);
    if LatestResults(s.db.checks) != [] {
      var c := Latest(s.db.checks).value;
      var k :| 0 <= k < |s.db.checks| && s.db.checks[k] == c;
      assert CheckSound(s.db.checks[k]);
      GradedIsTrustworthy(c, s.history);
    }
  }

  /** A plan read earlier and a snapshot of the same revision are the same plan. */
  lemma {:induction false} RevisionIsAStamp(s: State, actions: seq<Action>)
    requires Sound(s)
    ensures Stamped(Active(s.db.plans), LatestResults(Run(s, actions).db.checks))
  {
    SoundMeans(s);
    RunKeeps(s, actions);
    var later := Run(s, actions);
    LatestIsTrustworthy(later);
    ActiveStamped(s.db, s.history);
    var active, rs := Active(s.db.plans), LatestResults(later.db.checks);
    forall i, j | 0 <= i < |active| && 0 <= j < |rs| && rs[j].planId == active[i].id && rs[j].revision == active[i].revision
      ensures rs[j].snapshot == active[i]
    {
      assert InHistory(s.history, active[i]) && InHistory(later.history, rs[j].snapshot);
    }
  }

  lemma {:induction false} SymbolsOfChosen(active: seq<Plan>, rs: seq<Reading>)
    requires |rs| == |active| && forall i :: 0 <= i < |rs| ==> rs[i].snapshot == active[i]
    ensures forall x :: x in Symbols(rs) <==> exists i :: 0 <= i < |active| && active[i].data.symbol == x
  {
    if rs == [] {
    } else {
      var n := |rs| - 1;
      SymbolsOfChosen(active[..n], rs[..n]);
      assert forall i :: 0 <= i < n ==> active[..n][i] == active[i];
    }
  }

  lemma {:induction false} FewSymbols(s: State, rs: seq<Reading>)
    requires Sound(s) && |rs| == |Active(s.db.plans)|
    requires forall i :: 0 <= i < |rs| ==> rs[i].snapshot == Active(s.db.plans)[i]
    ensures |Symbols(rs)| <= 100
  {
    SoundMeans(s);
    var active := Active(s.db.plans);
    SymbolsOfChosen(active, rs);
    forall x | x in Symbols(rs)
      ensures x in StocksOf(s.db)
    {
      var i :| 0 <= i < |active| && active[i].data.symbol == x;
      ActiveRows(s.db.plans, i);
      HeldMeans(s.db.plans, x);
    }
    SubsetSize(Symbols(rs), StocksOf(s.db));
  }

  /** The summary of plans read at one moment, the check read later, the limit read later still. */
  function Seen(s: State, untilCheck: seq<Action>, untilSettings: seq<Action>): Summary {
    var s2 := Run(s, untilCheck);
    Summarized(s.db.plans, LatestResults(s2.db.checks), Run(s2, untilSettings).db.limit)
  }

  lemma {:induction false} Reachable(actions: seq<Action>)
    ensures Sound(Run(START, actions))
  {
    StartIsSound();
    RunKeeps(START, actions);
  }

  /**
   Whatever happens between the reads, a complete summary is about the active plans as they
   were read: one valid reading of each, all for one date with one close per stock; the totals
   are exact sums over those plans' own shares and costs.
   */
  lemma {:induction false} OverviewIsCurrent(actions: seq<Action>, untilCheck: seq<Action>, untilSettings: seq<Action>) returns (rs: seq<Reading>)
    requires var s := Run(START, actions);
             Seen(s, untilCheck, untilSettings).complete && 0 < |Active(s.db.plans)| <= Money.E13
    ensures var s := Run(START, actions);
            var seen, active := Seen(s, untilCheck, untilSettings), Active(s.db.plans);
            && |rs| == |active| && Good(rs) && SameTarget(rs)
            && (forall i :: 0 <= i < |rs| ==> rs[i].snapshot == active[i])
            && (forall i, j :: 0 <= i < |rs| && 0 <= j < |rs| && SymbolOf(rs[i]) == SymbolOf(rs[j]) ==> rs[i].quote == rs[j].quote)
            && ShownUnits(seen.value) == Worth(rs) && ShownUnits(seen.pnl) == Gains(rs)
            && ShownUnits(seen.value) - ShownUnits(seen.pnl) == Outlay(active)
            && Select(active, LatestResults(Run(s, untilCheck).db.checks)) == Some(rs)
            && |Symbols(rs)| <= 100
  {
    var s := Run(START, actions);
    Reachable(actions);
    RunKeeps(s, untilCheck);
    var s2 := Run(s, untilCheck);
    var results := LatestResults(s2.db.checks);
    LatestIsTrustworthy(s2);
    RevisionIsAStamp(s, untilCheck);
    rs := CompleteMeansCurrent(s.db.plans, results, Run(s2, untilSettings).db.limit);
    FewSymbols(s, rs);
    OneQuote(results, rs);
  }

  lemma {:induction false} OneQuote(results: seq<Reading>, rs: seq<Reading>)
    requires forall i, j :: 0 <= i < |results| && 0 <= j < |results| && SymbolOf(results[i]) == SymbolOf(results[j]) ==>
               results[i].quote == results[j].quote
    requires forall i :: 0 <= i < |rs| ==> rs[i] in results
    ensures forall i, j :: 0 <= i < |rs| && 0 <= j < |rs| && SymbolOf(rs[i]) == SymbolOf(rs[j]) ==> rs[i].quote == rs[j].quote
  {
    forall i, j | 0 <= i < |rs| && 0 <= j < |rs| && SymbolOf(rs[i]) == SymbolOf(rs[j])
      ensures rs[i].quote == rs[j].quote
    {
      var k :| 0 <= k < |results| && results[k] == rs[i];
      var m :| 0 <= m < |results| && results[m] == rs[j];
    }
  }

  /**
   And its concentrations are exact: every stock's warning is the exact comparison of its value
   with the limit's share of the total, and the displayed percentages add up to 100 within 0.5.
   */
  lemma {:induction false} ConcentrationsAreCurrent(actions: seq<Action>, untilCheck: seq<Action>, untilSettings: seq<Action>)
    returns (rs: seq<Reading>, hundredths: seq<nat>)
    requires var s := Run(START, actions);
             Seen(s, untilCheck, untilSettings).complete && 0 < |Active(s.db.plans)| <= Money.E13
    ensures var s := Run(START, actions);
            var s2 := Run(s, untilCheck);
            var seen, limit := Seen(s, untilCheck, untilSettings), Run(s2, untilSettings).db.limit;
            && Select(Active(s.db.plans), LatestResults(s2.db.checks)) == Some(rs) && Good(rs)
            && |hundredths| == |seen.weights| <= 100
            && (forall i :: 0 <= i < |seen.weights| ==> seen.weights[i].percent == Show(Dec(false, hundredths[i], -2)))
            && -50 <= SumOf(hundredths) - 10000 <= 50
            && (limit.Some? && |rs| <= 200000 ==>
                  forall i :: 0 <= i < |seen.weights| ==>
                    (seen.weights[i].triggered <==>
                     WorthOf(rs, seen.weights[i].symbol) * Money.E8 >= LimitUnits(limit.value) * Worth(rs)))
  {
    rs := OverviewIsCurrent(actions, untilCheck, untilSettings);
    var s := Run(START, actions);
    var s2 := Run(s, untilCheck);
    var limit := Run(s2, untilSettings).db.limit;
    SummaryWeights(s.db.plans, LatestResults(s2.db.checks), limit, rs);
    hundredths := PercentagesAddUp(rs, limit);
    OneEntryPerStock(rs);
    if limit.Some? && |rs| <= 200000 {
      ManyPlansFit(rs);
      StoredLimit(actions + untilCheck + untilSettings);
      RunsJoin(actions, untilCheck);
      RunsJoin(actions + untilCheck, untilSettings);
      AllTriggersExact(rs, limit.value);
    }
  }

  lemma {:induction false} RunSnoc(s: State, actions: seq<Action>, a: Action)
    ensures Run(s, actions + [a]) == Step(Run(s, actions), a)
  {
    assert (actions + [a])[..|actions|] == actions;
  }

  lemma {:induction false} RunsJoin(a: seq<Action>, b: seq<Action>)
    ensures Run(START, a + b) == Run(Run(START, a), b)
  {
    if b == [] {
      assert a + b == a;
    } else {
      var front, last := b[..|b| - 1], b[|b| - 1];
      assert b == front + [last] && a + b == a + front + [last];
      RunsJoin(a, front);
      RunSnoc(START, a + front, last);
      RunSnoc(Run(START, a), front, last);
    }
  }

  /** After every run a stored concentration limit is one a summary can compare with. */
  lemma {:induction false} StoredLimit(actions: seq<Action>)
    ensures Comparable(Run(START, actions).db.limit)
  {
    if actions == [] {
    } else {
      var front, a := actions[..|actions| - 1], actions[|actions| - 1];
      StoredLimit(front);
      StepLimit(Run(START, front), a);
    }
  }

  predicate Comparable(limit: Option<string>) {
    limit.Some? ==> Limit(limit.value)
  }

  lemma {:induction false} StepLimit(s: State, a: Action)
    requires Comparable(s.db.limit)
    ensures Comparable(Step(s, a).db.limit)
  {
    if a.Configure? {
      var r := UpdateSettings(s.db, a.settings);
      if r.Fine? && r.value.limit.Some? { LimitIsComparable(s.db, a.settings); }
    } else if a.Target? {
      TargetFrame(s, a.calendar, a.failure);
    } else if a.Finish? {
      FinishFrame(s, a.quotes, a.failure);
    } else {
      LimitFrame(s, a);
    }
  }

  lemma {:induction false} LimitFrame(s: State, a: Action)
    requires !a.Configure? && !a.Target? && !a.Finish?
    ensures Step(s, a).db.limit == s.db.limit
  {
  }

  function SumOf(xs: seq<nat>): nat {
    Percent.SumNat(xs)
  }

  function LimitUnits(s: string): int {
    Micro(Number(s))
  }

  lemma {:induction false} SummaryWeights(plans: seq<Held>, results: seq<Reading>, limit: Option<string>, rs: seq<Reading>)
    requires Active(plans) != [] && Select(Active(plans), results) == Some(rs) && SameTarget(rs)
    ensures Summarized(plans, results, limit).weights == Weights(Sorted(Stocks(rs)), TotalValue(rs), limit)
  {
  }

  lemma {:induction false} AllTriggersExact(rs: seq<Reading>, limit: string)
    requires Good(rs) && rs != [] && |rs| <= Money.E13 && Limit(limit) && Worth(rs) < 2 * Money.E32
    ensures var ws := Weights(Sorted(Stocks(rs)), TotalValue(rs), Some(limit));
            forall i :: 0 <= i < |ws| ==>
              (ws[i].triggered <==> WorthOf(rs, ws[i].symbol) * Money.E8 >= LimitUnits(limit) * Worth(rs))
  {
    var ws := Weights(Sorted(Stocks(rs)), TotalValue(rs), Some(limit));
    SomeStock(rs);
    HoldingsAreExact(rs, 0);
    WeightsAt(Sorted(Stocks(rs)), TotalValue(rs), Some(limit), 0);
    forall i | 0 <= i < |ws|
      ensures ws[i].triggered <==> WorthOf(rs, ws[i].symbol) * Money.E8 >= LimitUnits(limit) * Worth(rs)
    {
      TriggersAreExact(rs, limit, i);
    }
  }
}
