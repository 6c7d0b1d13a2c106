/**
 The portfolio summary (`summarize` of `web/portfolio/domain.py`): totals and concentrations
 over the current active plans, or nothing when any of them lacks a valid current reading.
 */
module Overview {
  import opened Wrappers
  import opened Text
  import opened Decimals
  import opened Money
  import opened Percent
  import opened Valuation

  datatype Held = Held(plan: Plan, active: bool)

  datatype Weight = Weight(symbol: string, percent: string, triggered: bool)

  datatype Summary = Summary(complete: bool, value: Option<string>, pnl: Option<string>, weights: seq<Weight>)

  const INCOMPLETE := Summary(false, None, None, [])

  const ZERO := Dec(false, 0, 0)

  // ---------------------------------------------------------------- choosing the readings

  function Active(plans: seq<Held>): seq<Plan> {
    if plans == [] then []
    else
      var last := plans[|plans| - 1];
      Active(plans[..|plans| - 1]) + (if last.active then [last.plan] else [])
  }

  /** The entry of `{r["plan_id"]: r for r in results}`: the last reading of that plan. */
  function Match(results: seq<Reading>, id: string): Option<Reading> {
    if results == [] then None
    else if results[|results| - 1].planId == id then Some(results[|results| - 1])
    else Match(results[..|results| - 1], id)
  }

  /** The current, valid reading of a plan. */
  function Current(p: Plan, results: seq<Reading>): Option<Reading> {
    var r := Match(results, p.id);
    if r.None? || r.value.revision != p.revision || r.value.quality != Valid then None else r
  }

  function Select(active: seq<Plan>, results: seq<Reading>): Option<seq<Reading>> {
    if active == [] then Some([])
    else
      var front := Select(active[..|active| - 1], results);
      var last := Current(active[|active| - 1], results);
      if front.None? || last.None? then None else Some(front.value + [last.value])
  }

  predicate SameTarget(selected: seq<Reading>) {
    forall i :: 0 <= i < |selected| ==> selected[i].target == selected[0].target
  }

  // ---------------------------------------------------------------- totals

  function AmountOf(text: Option<string>): Dec {
    if text.Some? then Number(text.value) else ZERO
  }

  function TotalValue(rs: seq<Reading>): Dec {
    if rs == [] then ZERO else Add(TotalValue(rs[..|rs| - 1]), AmountOf(rs[|rs| - 1].value), PREC)
  }

  function TotalPnl(rs: seq<Reading>): Dec {
    if rs == [] then ZERO else Add(TotalPnl(rs[..|rs| - 1]), AmountOf(rs[|rs| - 1].pnl), PREC)
  }

  /** `stocks[symbol] = stocks.get(symbol, 0) + value`, on a dictionary in insertion order. */
  function Credit(stocks: seq<(string, Dec)>, symbol: string, value: Dec): seq<(string, Dec)> {
    if stocks == [] then [(symbol, Add(ZERO, value, PREC))]
    else if stocks[0].0 == symbol then [(symbol, Add(stocks[0].1, value, PREC))] + stocks[1..]
    else [stocks[0]] + Credit(stocks[1..], symbol, value)
  }

  function Stocks(rs: seq<Reading>): seq<(string, Dec)> {
    if rs == [] then []
    else
      var last := rs[|rs| - 1];
      Credit(Stocks(rs[..|rs| - 1]), last.snapshot.data.symbol, AmountOf(last.value))
  }

  /** Larger values first, equal values by symbol. */
  predicate Ahead(a: (string, Dec), b: (string, Dec)) {
    Value(a.1) > Value(b.1) || (Value(a.1) == Value(b.1) && Leq(a.0, b.0))
  }

  function Insert(x: (string, Dec), xs: seq<(string, Dec)>): seq<(string, Dec)> {
    if xs == [] then [x]
    else if Ahead(x, xs[0]) then [x] + xs
    else [xs[0]] + Insert(x, xs[1..])
  }

  function Sorted(xs: seq<(string, Dec)>): seq<(string, Dec)> {
    if xs == [] then [] else Insert(xs[0], Sorted(xs[1..]))
  }

  function Weigh(stock: (string, Dec), total: Dec, limit: Option<string>): Weight
    requires total.coef > 0
  {
    var percent := Share(stock.1, total, PREC);
    Weight(stock.0, Show(Cents(percent)), limit.Some? && Value(percent) >= Value(Number(limit.value)))
  }

  /** A zero total has no shares; the total of valid readings is never zero (`TotalsArePositive`). */
  function Weights(stocks: seq<(string, Dec)>, total: Dec, limit: Option<string>): seq<Weight> {
    if stocks == [] || total.coef == 0 then []
    else Weights(stocks[..|stocks| - 1], total, limit) + [Weigh(stocks[|stocks| - 1], total, limit)]
  }

  function Summarized(plans: seq<Held>, results: seq<Reading>, limit: Option<string>): Summary {
    var active := Active(plans);
    if active == [] then Summary(true, Some("0"), Some("0"), [])
    else
      match Select(active, results)
      case None => INCOMPLETE
      case Some(selected) =>
        if !SameTarget(selected) then INCOMPLETE
        else
          var total := TotalValue(selected);
          Summary(true, Some(Show(total)), Some(Show(TotalPnl(selected))), Weights(Sorted(Stocks(selected)), total, limit))
  }

  // ---------------------------------------------------------------- the loops of `summarize`

  method Choose(active: seq<Plan>, results: seq<Reading>) returns (selected: Option<seq<Reading>>)
    ensures selected == Select(active, results)
  {
    var rs, i := [], 0;
    while i < |active|
      invariant 0 <= i <= |active|
      invariant Select(active[..i], results) == Some(rs)
    {
      var r := Match(results, active[i].id);
      assert active[..i + 1][..i] == active[..i];
      if r.None? || r.value.revision != active[i].revision || r.value.quality != Valid {
        NoneStays(active, i + 1, results);
        return None;
      }
      rs := rs + [r.value];
      i := i + 1;
    }
    assert active[..i] == active;
    selected := Some(rs);
  }

  lemma {:induction false} NoneStays(active: seq<Plan>, i: nat, results: seq<Reading>)
    requires i <= |active| && Select(active[..i], results) == None
    ensures Select(active, results) == None
    decreases |active|
  {
    if i == |active| {
      assert active[..i] == active;
    } else {
      assert active[..|active| - 1][..i] == active[..i];
      NoneStays(active[..|active| - 1], i, results);
    }
  }

  method AddUp(selected: seq<Reading>) returns (total: Dec, pnl: Dec, stocks: seq<(string, Dec)>)
    ensures total == TotalValue(selected) && pnl == TotalPnl(selected) && stocks == Stocks(selected)
  {
    total, pnl, stocks := ZERO, ZERO, [];
    var i := 0;
    while i < |selected|
      invariant 0 <= i <= |selected|
      invariant total == TotalValue(selected[..i]) && pnl == TotalPnl(selected[..i])
      invariant stocks == Stocks(selected[..i])
    {
      var r := selected[i];
      assert selected[..i + 1][..i] == selected[..i];
      total := Add(total, AmountOf(r.value), PREC);
      pnl := Add(pnl, AmountOf(r.pnl), PREC);
      stocks := Credit(stocks, r.snapshot.data.symbol, AmountOf(r.value));
      i := i + 1;
    }
    assert selected[..i] == selected;
  }

  method Summarize(plans: seq<Held>, results: seq<Reading>, limit: Option<string>) returns (summary: Summary)
    ensures summary == Summarized(plans, results, limit)
  {
    var active := Active(plans);
    if active == [] {
      return Summary(true, Some("0"), Some("0"), []);
    }
    var chosen := Choose(active, results);
    if chosen.None? {
      return INCOMPLETE;
    }
    var selected := chosen.value;
    if exists i :: 0 <= i < |selected| && selected[i].target != selected[0].target {
      return INCOMPLETE;
    }
    var total, pnl, stocks := AddUp(selected);
    var weights := WeighAll(Sorted(stocks), total, limit);
    summary := Summary(true, Some(Show(total)), Some(Show(pnl)), weights);
  }

  method WeighAll(stocks: seq<(string, Dec)>, total: Dec, limit: Option<string>) returns (weights: seq<Weight>)
    ensures weights == Weights(stocks, total, limit)
  {
    weights := [];
    if total.coef == 0 {
      return;
    }
    var i := 0;
    while i < |stocks|
      invariant 0 <= i <= |stocks|
      invariant weights == Weights(stocks[..i], total, limit)
    {
      var weight := Weigh(stocks[i], total, limit);
      WeightsNext(stocks, i, total, limit);
      weights := weights + [weight];
      i := i + 1;
    }
    assert stocks[..i] == stocks;
  }

  lemma {:induction false} WeightsSnoc(stocks: seq<(string, Dec)>, stock: (string, Dec), total: Dec, limit: Option<string>)
    requires total.coef > 0
    ensures Weights(stocks + [stock], total, limit) == Weights(stocks, total, limit) + [Weigh(stock, total, limit)]
  {
    assert (stocks + [stock])[..|stocks|] == stocks;
  }

  lemma {:induction false} WeightsNext(stocks: seq<(string, Dec)>, i: nat, total: Dec, limit: Option<string>)
    requires total.coef > 0 && i < |stocks|
    ensures Weights(stocks[..i + 1], total, limit) == Weights(stocks[..i], total, limit) + [Weigh(stocks[i], total, limit)]
  {
    assert stocks[..i + 1] == stocks[..i] + [stocks[i]];
    WeightsSnoc(stocks[..i], stocks[i], total, limit);
  }
}
