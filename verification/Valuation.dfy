/**
 Evaluating one plan against one quote (`evaluate` of `web/portfolio/domain.py`), and running
 the evaluation over a frozen list of plans as a close check does.
 */
module Valuation {
  import opened Wrappers
  import opened Text
  import opened Decimals
  import opened Money
  import opened Plans

  const PREC: nat := 40

  datatype Plan = Plan(id: string, revision: nat, data: PlanData)

  /** A quote as the market returns it; an empty error code is no error. */
  datatype Quote = Quote(error: string, priceDate: Option<string>, symbol: Option<string>, currency: Option<string>, close: Json)

  datatype Quality = Valid | CostPending | Missing | Stale

  datatype Signal = AtLower | AtUpper | ReviewDue

  datatype Standing = Review | Unavailable | NotTriggered | NoConditions

  datatype Reading = Reading(planId: string, revision: nat, snapshot: Plan, target: string, quote: Option<Quote>,
                             quality: Quality, error: Option<string>, signals: seq<Signal>, standing: Standing,
                             value: Option<string>, pnl: Option<string>)

  /** `Decimal(s)`; every text it meets here is plain notation. */
  function Number(s: string): Dec {
    if Numeric(s) then Parse(s) else Dec(false, 0, 0)
  }

  function Grade(d: PlanData, quote: Option<Quote>, target: string): (Quality, Option<string>) {
    if d.costPending then (CostPending, Some("cost_pending"))
    else if quote.None? then (Missing, Some("missing_quote"))
    else
      var q := quote.value;
      if q.error != "" then (if q.error == "stale_quote" then Stale else Missing, Some(q.error))
      else if q.priceDate != Some(target) then (Stale, Some("stale_quote"))
      else if q.symbol != Some(d.symbol) || q.currency != Some("CNY") then (Missing, Some("invalid_quote"))
      else if Amount(q.close).None? then (Missing, Some("invalid_quote"))
      else (Valid, None)
  }

  function CloseOf(quote: Option<Quote>): Dec {
    if quote.Some? && quote.value.close.Str? then Number(quote.value.close.s) else Dec(false, 0, 0)
  }

  function Crossings(d: PlanData, close: Dec): seq<Signal> {
    (if d.lower.Some? && Value(close) <= Value(Number(d.lower.value)) then [AtLower] else []) +
    (if d.upper.Some? && Value(close) >= Value(Number(d.upper.value)) then [AtUpper] else [])
  }

  function MarketValue(d: PlanData, close: Dec): Dec {
    Mul(close, Whole(d.shares), PREC)
  }

  function Unrealized(d: PlanData, close: Dec): Dec {
    Mul(Sub(close, Number(d.cost), PREC), Whole(d.shares), PREC)
  }

  function Due(d: PlanData, target: string): seq<Signal> {
    if d.review.Some? && Leq(d.review.value, target) then [ReviewDue] else []
  }

  /** `evaluate`. */
  function Evaluated(plan: Plan, quote: Option<Quote>, target: string): Reading {
    var d := plan.data;
    var (quality, error) := Grade(d, quote, target);
    var close := CloseOf(quote);
    var valid := quality == Valid;
    var signals := (if valid then Crossings(d, close) else []) + Due(d, target);
    var standing := if signals != [] then Review
                 else if !valid then Unavailable
                 else if d.lower.Some? || d.upper.Some? || d.review.Some? then NotTriggered
                 else NoConditions;
    Reading(plan.id, plan.revision, plan, target, quote, quality, error, signals, standing,
            if valid then Some(Show(MarketValue(d, close))) else None,
            if valid then Some(Show(Unrealized(d, close))) else None)
  }

  // ---------------------------------------------------------------- amounts in micro-units

  lemma {:induction false} UnitsOf(d: Dec, n: nat)
    requires Small(d) && !d.neg && d.coef < Pow(n) && n + d.exp <= 12
    ensures d.coef <= Units(d) < E18 && (d.coef > 0 ==> Units(d) > 0)
  {
    AtTimes(d, -6);
    UnitsBelow(d.coef, n, 6 + d.exp);
    PowGrows(n + (6 + d.exp), 18);
    PowersOfTen();
  }

  /** Admitted amounts are below 10^18 micro-units. */
  lemma {:induction false} AdmittedUnits(s: string)
    requires Admitted(s)
    ensures Numeric(s) && Small(Parse(s)) && !Parse(s).neg && 0 <= Units(Parse(s)) < E18
    ensures Parse(s).coef <= Units(Parse(s))
    ensures PositiveDecimal(s).Some? ==> Parse(s).coef > 0 && Units(Parse(s)) > 0
  {
    var whole, frac := AdmittedText(s);
    ReadsAdmitted(s, whole, frac);
    UnitsOf(Parse(s), |whole| + |frac|);
  }

  lemma {:induction false} UnitsBelow(coef: nat, n: nat, k: nat)
    requires coef < Pow(n)
    ensures coef <= coef * Pow(k) < Pow(n + k)
    ensures coef > 0 ==> coef * Pow(k) > 0
  {
    PowAdd(n, k);
    MulMono(1, Pow(k), coef);
    MulMono(coef + 1, Pow(n), Pow(k));
    assert (coef + 1) * Pow(k) == coef * Pow(k) + Pow(k);
    Positive(coef, Pow(k));
  }

  lemma {:induction false} SharesBelow(coef: nat, shares: nat)
    requires coef < E18 && shares <= 1000000000
    ensures coef * shares < E27 < E40
  {
    MulMono(shares, 1000000000, coef);
    assert coef * 1000000000 < E27;
    assert shares * coef == coef * shares;
  }

  /** A close or a cost: what `positive_decimal` accepts. */
  predicate Priced(s: string) {
    PositiveDecimal(s).Some?
  }

  lemma {:induction false} PricedUnits(s: string)
    requires Priced(s)
    ensures Number(s) == Parse(s) && Small(Number(s)) && !Number(s).neg && Number(s).coef > 0
    ensures 0 < Units(Number(s)) < E18 && Number(s).coef <= Units(Number(s))
  {
    AdmittedUnits(s);
  }

  /** The market value is the exact product. */
  lemma {:induction false} MarketValueIsExact(d: PlanData, close: string)
    requires ValidData(d) && Priced(close)
    ensures var v := MarketValue(d, Number(close));
            Small(v) && !v.neg && Units(v) == Units(Number(close)) * d.shares
  {
    PowersOfTen();
    ValidMeansNormal(d);
    PricedUnits(close);
    SharesBelow(Number(close).coef, d.shares);
    TimesIsExact(Number(close), d.shares, PREC);
    FixExact(Dec(false, Number(close).coef * d.shares, Number(close).exp), PREC);
  }

  lemma {:induction false} Gain(cost: string, close: string) returns (gain: Dec)
    requires Priced(cost) && Priced(close)
    ensures gain == Sub(Number(close), Number(cost), PREC)
    ensures Small(Number(close)) && Small(Number(cost))
    ensures Small(gain) && Clean(gain) && Units(gain) == Units(Number(close)) - Units(Number(cost)) && gain.coef < E18
  {
    PricedUnits(close);
    PricedUnits(cost);
    PowersOfTen();
    SubIsExact(Number(close), Number(cost), PREC);
    gain := Sub(Number(close), Number(cost), PREC);
    CoefBelow(gain);
  }

  lemma {:induction false} SharesTimes(a: Dec, shares: nat)
    requires Small(a) && a.coef < E18 && 1 <= shares <= 1000000000
    ensures var v := Mul(a, Whole(shares), PREC);
            Small(v) && Units(v) == Units(a) * shares && (Clean(a) ==> Clean(v))
  {
    PowersOfTen();
    SharesBelow(a.coef, shares);
    TimesIsExact(a, shares, PREC);
  }

  lemma {:induction false} Distribute(v: int, gain: int, a: int, b: int, n: nat)
    requires v == gain * n && gain == a - b
    ensures v == a * n - b * n
  {
  }

  lemma {:induction false} UnrealizedIsExact(d: PlanData, close: string)
    requires Priced(d.cost) && 1 <= d.shares <= 1000000000 && Priced(close)
    ensures var v := Unrealized(d, Number(close));
            && Small(Number(close)) && Small(Number(d.cost)) && Small(v) && Clean(v)
            && Units(v) == Units(Number(close)) * d.shares - Units(Number(d.cost)) * d.shares
  {
    var gain := Gain(d.cost, close);
    SharesTimes(gain, d.shares);
    Distribute(Units(Mul(gain, Whole(d.shares), PREC)), Units(gain), Units(Number(close)), Units(Number(d.cost)), d.shares);
  }

  lemma {:induction false} CoefBelow(d: Dec)
    requires Small(d)
    ensures d.coef <= Abs(Units(d))
  {
    AtZero(d, -6);
  }

  /** An amount survives being printed and read back. */
  lemma {:induction false} ShownAmount(d: Dec)
    requires Small(d)
    ensures Numeric(Show(d)) && Small(Number(Show(d)))
    ensures Units(Number(Show(d))) == Units(d) && Number(Show(d)).neg == d.neg
  {
    ShowParses(d);
    SameUnits(Number(Show(d)), d);
  }

  // ---------------------------------------------------------------- what a reading says

  /** The quote is an error-free close of that stock on that date. */
  predicate Usable(d: PlanData, quote: Option<Quote>, target: string) {
    && quote.Some? && quote.value.error == "" && quote.value.priceDate == Some(target)
    && quote.value.symbol == Some(d.symbol) && quote.value.currency == Some("CNY")
    && quote.value.close.Str? && Priced(quote.value.close.s)
  }

  lemma {:induction false} GradeMeans(d: PlanData, quote: Option<Quote>, target: string)
    ensures Grade(d, quote, target).0 == Valid <==> !d.costPending && Usable(d, quote, target)
    ensures Grade(d, quote, target).1.None? <==> Grade(d, quote, target).0 == Valid
  {
  }

  /** A reading is valid exactly for a plan without pending cost and a usable quote, and only then has amounts. */
  lemma {:induction false} ValidWhenUsable(plan: Plan, quote: Option<Quote>, target: string)
    ensures var r := Evaluated(plan, quote, target);
            && (r.quality == Valid <==> !plan.data.costPending && Usable(plan.data, quote, target))
            && (r.value.Some? <==> r.quality == Valid) && (r.pnl.Some? <==> r.quality == Valid)
            && (r.error.None? <==> r.quality == Valid)
  {
    GradeMeans(plan.data, quote, target);
    assert Evaluated(plan, quote, target).quality == Grade(plan.data, quote, target).0;
  }

  lemma {:induction false} AmountsPrinted(plan: Plan, quote: Option<Quote>, target: string)
    ensures var r := Evaluated(plan, quote, target);
            r.quality == Valid ==>
              && r.value == Some(Show(MarketValue(plan.data, CloseOf(quote))))
              && r.pnl == Some(Show(Unrealized(plan.data, CloseOf(quote))))
  {
  }

  /** Close, cost, value and profit of a valid reading, in micro-units. */
  ghost predicate Exact(d: PlanData, close: Dec, value: Dec, pnl: Dec) {
    && var cost := Number(d.cost);
    && Small(close) && Small(cost) && 0 < Units(close) < E18 && 0 < Units(cost) < E18
    && Small(value) && !value.neg && Units(value) == Units(close) * d.shares
    && Small(pnl) && Clean(pnl) && Units(pnl) == Units(close) * d.shares - Units(cost) * d.shares
  }

  lemma {:induction false} ComputedIsExact(d: PlanData, close: string)
    requires ValidData(d) && Priced(close)
    ensures Exact(d, Number(close), MarketValue(d, Number(close)), Unrealized(d, Number(close)))
  {
    ValidMeansNormal(d);
    PricedUnits(close);
    PricedUnits(d.cost);
    MarketValueIsExact(d, close);
    UnrealizedIsExact(d, close);
  }

  lemma {:induction false} PrintedIsExact(d: PlanData, close: Dec, value: Dec, pnl: Dec)
    requires Exact(d, close, value, pnl)
    ensures Exact(d, close, Number(Show(value)), Number(Show(pnl)))
  {
    ShownAmount(value);
    ShownAmount(pnl);
    AtZero(pnl, -6);
    AtZero(Number(Show(pnl)), -6);
  }

  /** The amounts of a valid reading are exact: close times shares, and its excess over cost times shares. */
  lemma {:induction false} AmountsAreExact(plan: Plan, quote: Option<Quote>, target: string)
    requires ValidData(plan.data) && Evaluated(plan, quote, target).quality == Valid
    ensures var r := Evaluated(plan, quote, target);
            r.value.Some? && r.pnl.Some? && Exact(plan.data, CloseOf(quote), Number(r.value.value), Number(r.pnl.value))
  {
    ValidWhenUsable(plan, quote, target);
    AmountsPrinted(plan, quote, target);
    var d, close := plan.data, quote.value.close.s;
    ComputedIsExact(d, close);
    PrintedIsExact(d, Number(close), MarketValue(d, Number(close)), Unrealized(d, Number(close)));
  }

  /** Each signal fires exactly on its condition. */
  lemma {:induction false} SignalsMean(plan: Plan, quote: Option<Quote>, target: string)
    ensures var r := Evaluated(plan, quote, target);
            var d, close := plan.data, CloseOf(quote);
            && (AtLower in r.signals <==> r.quality == Valid && d.lower.Some? && Value(close) <= Value(Number(d.lower.value)))
            && (AtUpper in r.signals <==> r.quality == Valid && d.upper.Some? && Value(close) >= Value(Number(d.upper.value)))
            && (ReviewDue in r.signals <==> d.review.Some? && Leq(d.review.value, target))
            && (r.standing == Review <==> r.signals != [])
            && (r.standing == Unavailable <==> r.signals == [] && r.quality != Valid)
  {
    var r := Evaluated(plan, quote, target);
    var d, close := plan.data, CloseOf(quote);
    var crossings := if r.quality == Valid then Crossings(d, close) else [];
    assert r.signals == crossings + Due(d, target);
    CrossingsMean(d, close);
    assert ReviewDue in Due(d, target) <==> Due(d, target) != [];
    assert AtLower !in Due(d, target) && AtUpper !in Due(d, target);
  }

  lemma {:induction false} CrossingsMean(d: PlanData, close: Dec)
    ensures AtLower in Crossings(d, close) <==> d.lower.Some? && Value(close) <= Value(Number(d.lower.value))
    ensures AtUpper in Crossings(d, close) <==> d.upper.Some? && Value(close) >= Value(Number(d.upper.value))
    ensures ReviewDue !in Crossings(d, close)
  {
  }

  lemma {:induction false} BoundsApart(d: PlanData)
    requires ValidData(d) && d.lower.Some? && d.upper.Some?
    ensures Value(Number(d.lower.value)) < Value(Number(d.upper.value))
  {
    ValidMeansNormal(d);
    PricedUnits(d.lower.value);
    PricedUnits(d.upper.value);
  }

  /** The limits of a plan in normal form cannot both be reached by one close. */
  lemma {:induction false} NeverBothLimits(plan: Plan, quote: Option<Quote>, target: string)
    requires ValidData(plan.data)
    ensures var r := Evaluated(plan, quote, target);
            !(AtLower in r.signals && AtUpper in r.signals)
  {
    SignalsMean(plan, quote, target);
    if plan.data.lower.Some? && plan.data.upper.Some? {
      BoundsApart(plan.data);
    }
  }

  // ---------------------------------------------------------------- a whole check

  function QuoteFor(quotes: map<string, Option<Quote>>, p: Plan): Option<Quote> {
    if p.data.symbol in quotes then quotes[p.data.symbol] else None
  }

  /** `[evaluate(p, quotes[p["symbol"]], target) for p in plans]`. */
  function Readings(plans: seq<Plan>, quotes: map<string, Option<Quote>>, target: string): (rs: seq<Reading>)
    ensures |rs| == |plans|
    ensures forall i :: 0 <= i < |plans| ==> rs[i] == Evaluated(plans[i], QuoteFor(quotes, plans[i]), target)
  {
    if plans == [] then []
    else [Evaluated(plans[0], QuoteFor(quotes, plans[0]), target)] + Readings(plans[1..], quotes, target)
  }

  lemma {:induction false} QuoteIsKept(p: Plan, quote: Option<Quote>, target: string)
    ensures Evaluated(p, quote, target).quote == quote && Evaluated(p, quote, target).snapshot == p
    ensures Evaluated(p, quote, target).planId == p.id && Evaluated(p, quote, target).revision == p.revision
    ensures Evaluated(p, quote, target).target == target
  {
  }

  function CountValid(rs: seq<Reading>): (n: nat)
    ensures n <= |rs|
    ensures n == |rs| <==> forall i :: 0 <= i < |rs| ==> rs[i].quality == Valid
    ensures n == 0 <==> forall i :: 0 <= i < |rs| ==> rs[i].quality != Valid
  {
    if rs == [] then 0 else CountValid(rs[..|rs| - 1]) + (if rs[|rs| - 1].quality == Valid then 1 else 0)
  }
}
