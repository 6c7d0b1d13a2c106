/**
 What a complete portfolio summary means: exact totals over the current plans' own data, exact
 concentration tests, and displayed percentages that add up.
 */
module OverviewLaws {
  import opened Wrappers
  import opened Text
  import opened Decimals
  import opened Money
  import opened Percent
  import opened Plans
  import opened Valuation
  import opened Overview

  /** A valid reading is the evaluation of the plan it snapshots. */
  ghost predicate Faithful(r: Reading) {
    forall k: nat {:trigger Unsealed(k)} :: Unsealed(k) ==>
      r.quality == Valid ==> r == Evaluated(r.snapshot, r.quote, r.target) && ValidData(r.snapshot.data)
  }

  lemma {:induction false} FaithfulMeans(r: Reading)
    ensures Faithful(r) <==>
            (r.quality == Valid ==> r == Evaluated(r.snapshot, r.quote, r.target) && ValidData(r.snapshot.data))
  {
    assert Unsealed(0);
  }

  ghost predicate AllFaithful(rs: seq<Reading>) {
    forall i :: 0 <= i < |rs| ==> Faithful(rs[i])
  }

  /** Id and revision determine a plan. */
  ghost predicate Stamped(active: seq<Plan>, rs: seq<Reading>) {
    forall i, j :: 0 <= i < |active| && 0 <= j < |rs| ==>
      (rs[j].planId == active[i].id && rs[j].revision == active[i].revision ==> rs[j].snapshot == active[i])
  }

  ghost predicate AllValid(rs: seq<Reading>) {
    forall i :: 0 <= i < |rs| ==> rs[i].quality == Valid
  }

  // ---------------------------------------------------------------- which readings are chosen

  lemma {:induction false} MatchIsThere(results: seq<Reading>, id: string)
    ensures Match(results, id).Some? ==> Match(results, id).value in results && Match(results, id).value.planId == id
    ensures Match(results, id).None? <==> forall i :: 0 <= i < |results| ==> results[i].planId != id
  {
    if results == [] {
    } else {
      MatchIsThere(results[..|results| - 1], id);
      var front, last := results[..|results| - 1], results[|results| - 1];
      assert forall i :: 0 <= i < |front| ==> results[i] == front[i];
      assert results[|results| - 1] == last;
    }
  }

  /** Every active plan has its reading of the same revision, or there is no selection. */
  lemma {:induction false} SelectMeans(active: seq<Plan>, results: seq<Reading>)
    ensures Select(active, results).Some? <==> forall i :: 0 <= i < |active| ==> Current(active[i], results).Some?
    ensures Select(active, results).Some? ==>
              var rs := Select(active, results).value;
              && |rs| == |active|
              && forall i :: 0 <= i < |rs| ==> Current(active[i], results) == Some(rs[i])
  {
    if active == [] {
    } else {
      var front := active[..|active| - 1];
      SelectMeans(front, results);
      assert forall i :: 0 <= i < |front| ==> active[i] == front[i];
    }
  }

  ghost predicate Chosen(active: seq<Plan>, results: seq<Reading>, rs: seq<Reading>) {
    && |rs| == |active|
    && forall i :: 0 <= i < |rs| ==> rs[i] in results && rs[i].snapshot == active[i] && Faithful(rs[i]) && rs[i].quality == Valid
  }

  lemma {:induction false} SelectedAreCurrent(active: seq<Plan>, results: seq<Reading>)
    requires AllFaithful(results) && Stamped(active, results) && Select(active, results).Some?
    ensures Chosen(active, results, Select(active, results).value)
  {
    SelectMeans(active, results);
    var rs := Select(active, results).value;
    forall i | 0 <= i < |rs|
      ensures rs[i] in results && rs[i].snapshot == active[i] && Faithful(rs[i]) && rs[i].quality == Valid
    {
      assert Current(active[i], results) == Some(rs[i]);
      MatchIsThere(results, active[i].id);
    }
  }

  // ---------------------------------------------------------------- exact totals

  function Micro(d: Dec): int {
    if Small(d) then Units(d) else 0
  }

  function Close(r: Reading): int {
    Micro(CloseOf(r.quote))
  }

  function Cost(p: Plan): int {
    Micro(Number(p.data.cost))
  }

  /** Close times shares, summed. */
  function Worth(rs: seq<Reading>): int {
    if rs == [] then 0 else Worth(rs[..|rs| - 1]) + Close(rs[|rs| - 1]) * rs[|rs| - 1].snapshot.data.shares
  }

  function Profit(r: Reading): int {
    Close(r) * r.snapshot.data.shares - Cost(r.snapshot) * r.snapshot.data.shares
  }

  /** Close less cost, times shares, summed. */
  function Gains(rs: seq<Reading>): int {
    if rs == [] then 0 else Gains(rs[..|rs| - 1]) + Profit(rs[|rs| - 1])
  }

  function Outlay(plans: seq<Plan>): int {
    if plans == [] then 0 else Outlay(plans[..|plans| - 1]) + Cost(plans[|plans| - 1]) * plans[|plans| - 1].data.shares
  }

  ghost predicate Good(rs: seq<Reading>) {
    AllFaithful(rs) && AllValid(rs)
  }

  lemma {:induction false} ValueBounded(close: int, shares: nat)
    requires 1 <= shares <= 1000000000 && 0 < close < E18
    ensures 0 < close * shares < E27
  {
    SharesBelow(close, shares);
    Positive(close, shares);
  }

  /** What one good reading contributes. */
  lemma {:induction false} ReadingIsExact(r: Reading)
    requires Faithful(r) && r.quality == Valid
    ensures Exact(r.snapshot.data, CloseOf(r.quote), AmountOf(r.value), AmountOf(r.pnl))
    ensures var d := r.snapshot.data;
            && Micro(AmountOf(r.value)) == Close(r) * d.shares
            && Micro(AmountOf(r.pnl)) == Close(r) * d.shares - Cost(r.snapshot) * d.shares
            && 0 < Close(r) * d.shares < E27 && 0 < Cost(r.snapshot) * d.shares < E27
  {
    FaithfulMeans(r);
    ValidMeansNormal(r.snapshot.data);
    AmountsAreExact(r.snapshot, r.quote, r.target);
    var d := r.snapshot.data;
    ValueBounded(Close(r), d.shares);
    ValueBounded(Cost(r.snapshot), d.shares);
  }

  /** An upper bound for the total of `n` amounts. */
  function Room(n: nat): nat {
    n * E27
  }

  lemma {:induction false} RoomFits(n: nat)
    requires n <= E13
    ensures Room(n) <= E40
  {
  }

  lemma {:induction false} OneMore(total: Dec, amount: Dec, room: nat, unit: nat, prec: nat)
    requires Small(total) && Clean(total) && Abs(Units(total)) <= room
    requires Small(amount) && Clean(amount) && Abs(Units(amount)) < unit && room + unit <= Pow(prec) && prec > 0
    ensures var t := Add(total, amount, prec);
            && Small(t) && Clean(t) && Units(t) == Units(total) + Units(amount) && Abs(Units(t)) <= room + unit
  {
    AddIsExact(total, amount, prec);
  }

  lemma {:induction false} GoodFront(rs: seq<Reading>)
    requires Good(rs) && rs != []
    ensures Good(rs[..|rs| - 1]) && Faithful(rs[|rs| - 1]) && rs[|rs| - 1].quality == Valid
  {
  }

  lemma {:induction false} ValueAdds(r: Reading)
    requires Faithful(r) && r.quality == Valid
    ensures var a := AmountOf(r.value);
            Small(a) && Clean(a) && Units(a) == Close(r) * r.snapshot.data.shares && 0 < Units(a) < E27
  {
    ReadingIsExact(r);
    ExactIsClean(r);
  }

  lemma {:induction false} PnlAdds(r: Reading)
    requires Faithful(r) && r.quality == Valid
    ensures var a := AmountOf(r.pnl);
            && Small(a) && Clean(a) && Abs(Units(a)) < E27
            && Units(a) == Close(r) * r.snapshot.data.shares - Cost(r.snapshot) * r.snapshot.data.shares
  {
    ReadingIsExact(r);
    ExactIsClean(r);
  }

  lemma {:induction false} NextValue(total: Dec, worth: int, room: nat, r: Reading, next: Dec)
    requires Faithful(r) && r.quality == Valid && next == Add(total, AmountOf(r.value), PREC)
    requires Small(total) && Clean(total) && Units(total) == worth && Abs(worth) <= room && room + E27 <= E40
    ensures Small(next) && Clean(next) && Units(next) == worth + Close(r) * r.snapshot.data.shares
    ensures Abs(Units(next)) <= room + E27 && Close(r) * r.snapshot.data.shares > 0
  {
    PowersOfTen();
    ValueAdds(r);
    OneMore(total, AmountOf(r.value), room, E27, PREC);
  }

  lemma {:induction false} NextPnl(total: Dec, gains: int, room: nat, r: Reading, next: Dec)
    requires Faithful(r) && r.quality == Valid && next == Add(total, AmountOf(r.pnl), PREC)
    requires Small(total) && Clean(total) && Units(total) == gains && Abs(gains) <= room && room + E27 <= E40
    ensures Small(next) && Clean(next) && Abs(Units(next)) <= room + E27
    ensures Units(next) == gains + Profit(r)
  {
    PowersOfTen();
    PnlAdds(r);
    OneMore(total, AmountOf(r.pnl), room, E27, PREC);
  }

  /** The total value of at most 10^13 good readings is the exact sum. */
  lemma {:induction false} TotalValueIsExact(rs: seq<Reading>)
    requires Good(rs) && |rs| <= E13
    ensures var v := TotalValue(rs); Small(v) && Clean(v) && Units(v) == Worth(rs) && Abs(Units(v)) <= Room(|rs|)
    ensures Worth(rs) >= 0 && (rs != [] ==> Worth(rs) > 0)
  {
    if rs == [] {
    } else {
      var front, r := rs[..|rs| - 1], rs[|rs| - 1];
      GoodFront(rs);
      TotalValueIsExact(front);
      RoomFits(|rs|);
      NextValue(TotalValue(front), Worth(front), Room(|front|), r, TotalValue(rs));
    }
  }

  lemma {:induction false} PnlTotals(rs: seq<Reading>, n: nat) returns (gains: int)
    requires Good(rs) && n == |rs| <= E13
    ensures gains == Gains(rs)
    ensures var p := TotalPnl(rs); Small(p) && Clean(p) && Units(p) == gains && Abs(gains) <= Room(n)
    decreases |rs|
  {
    if rs == [] {
      gains := 0;
    } else {
      var front, r := rs[..n - 1], rs[n - 1];
      GoodFront(rs);
      var before := PnlTotals(front, n - 1);
      RoomFits(n);
      NextPnl(TotalPnl(front), before, Room(n - 1), r, TotalPnl(rs));
      gains := Units(TotalPnl(rs));
    }
  }

  /** So is the total profit or loss. */
  lemma {:induction false} TotalPnlIsExact(rs: seq<Reading>)
    requires Good(rs) && |rs| <= E13
    ensures var p := TotalPnl(rs); Small(p) && Clean(p) && Units(p) == Gains(rs) && Abs(Units(p)) <= Room(|rs|)
  {
    var gains := PnlTotals(rs, |rs|);
  }

  lemma {:induction false} ExactIsClean(r: Reading)
    requires Exact(r.snapshot.data, CloseOf(r.quote), AmountOf(r.value), AmountOf(r.pnl))
    ensures Clean(AmountOf(r.value)) && Clean(AmountOf(r.pnl))
  {
  }

  lemma {:induction false} WorthLessGains(rs: seq<Reading>, plans: seq<Plan>)
    requires |rs| == |plans| && forall i :: 0 <= i < |rs| ==> rs[i].snapshot == plans[i]
    ensures Worth(rs) - Gains(rs) == Outlay(plans)
  {
    if rs == [] {
    } else {
      var n := |rs| - 1;
      WorthLessGains(rs[..n], plans[..n]);
    }
  }

  // ---------------------------------------------------------------- complete summaries

  lemma {:induction false} CompleteIs(plans: seq<Held>, results: seq<Reading>, limit: Option<string>)
    ensures var active := Active(plans);
            Summarized(plans, results, limit).complete <==>
            active == [] || (Select(active, results).Some? && SameTarget(Select(active, results).value))
  {
  }

  ghost predicate OneDate(active: seq<Plan>, results: seq<Reading>) {
    forall i, j :: 0 <= i < |active| && 0 <= j < |active| && Current(active[i], results).Some? && Current(active[j], results).Some? ==>
      Current(active[i], results).value.target == Current(active[j], results).value.target
  }

  lemma {:induction false} SameTargetIsOneDate(active: seq<Plan>, results: seq<Reading>, rs: seq<Reading>)
    requires |rs| == |active| && forall i :: 0 <= i < |rs| ==> Current(active[i], results) == Some(rs[i])
    ensures SameTarget(rs) <==> OneDate(active, results)
  {
    if OneDate(active, results) {
      forall i | 0 <= i < |rs|
        ensures rs[i].target == rs[0].target
      {
        assert Current(active[i], results) == Some(rs[i]) && Current(active[0], results) == Some(rs[0]);
      }
    }
  }

  /**
   A summary is complete exactly when there is no active plan, or every active plan has a
   valid reading of its current revision and all of these are for one date.
   */
  lemma {:induction false} CompleteWhen(plans: seq<Held>, results: seq<Reading>, limit: Option<string>)
    ensures var active := Active(plans);
            Summarized(plans, results, limit).complete <==>
            active == [] || ((forall i :: 0 <= i < |active| ==> Current(active[i], results).Some?) && OneDate(active, results))
  {
    var active := Active(plans);
    CompleteIs(plans, results, limit);
    SelectMeans(active, results);
    if Select(active, results).Some? {
      SameTargetIsOneDate(active, results, Select(active, results).value);
    }
  }

  /** The texts of a complete summary, in micro-units. */
  function ShownUnits(text: Option<string>): int {
    Micro(AmountOf(text))
  }

  lemma {:induction false} TotalsShown(rs: seq<Reading>)
    requires Good(rs) && |rs| <= E13
    ensures ShownUnits(Some(Show(TotalValue(rs)))) == Worth(rs) && ShownUnits(Some(Show(TotalPnl(rs)))) == Gains(rs)
  {
    TotalValueIsExact(rs);
    TotalPnlIsExact(rs);
    ShownAmount(TotalValue(rs));
    ShownAmount(TotalPnl(rs));
  }

  lemma {:induction false} ChosenIsGood(active: seq<Plan>, results: seq<Reading>, rs: seq<Reading>)
    requires Chosen(active, results, rs)
    ensures Good(rs)
  {
  }

  /**
   A complete summary is about the current plans: one reading of each active plan as it is
   now, all for one date; its totals are exact sums over those plans' own shares and costs,
   and value less profit is what the plans cost.
   */
  lemma {:induction false} CompleteMeansCurrent(plans: seq<Held>, results: seq<Reading>, limit: Option<string>) returns (rs: seq<Reading>)
    requires AllFaithful(results) && Stamped(Active(plans), results) && |Active(plans)| <= E13
    requires Summarized(plans, results, limit).complete && Active(plans) != []
    ensures Select(Active(plans), results) == Some(rs) && Chosen(Active(plans), results, rs) && Good(rs) && SameTarget(rs)
    ensures var s := Summarized(plans, results, limit);
            && ShownUnits(s.value) == Worth(rs)
            && ShownUnits(s.pnl) == Gains(rs)
            && ShownUnits(s.value) - ShownUnits(s.pnl) == Outlay(Active(plans))
  {
    var active := Active(plans);
    rs := Select(active, results).value;
    SelectedAreCurrent(active, results);
    ChosenIsGood(active, results, rs);
    TotalsShown(rs);
    WorthLessGains(rs, active);
  }

  lemma {:induction false} ZeroText()
    ensures Numeric("0") && Parse("0") == ZERO
  {
    ParseWhole(false, "0");
    assert Sign(false) + "0" == "0";
    assert Nat("0") == 0;
  }

  /** Without active plans the totals are zero. */
  lemma {:induction false} NothingHeld(plans: seq<Held>, results: seq<Reading>, limit: Option<string>)
    requires Active(plans) == []
    ensures var s := Summarized(plans, results, limit);
            s.complete && ShownUnits(s.value) == 0 && ShownUnits(s.pnl) == 0 && s.weights == []
  {
    ZeroText();
    AtZero(ZERO, -6);
    assert Summarized(plans, results, limit) == Summary(true, Some("0"), Some("0"), []);
  }
}
