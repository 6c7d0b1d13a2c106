/**
 The concentrations of a complete portfolio summary: a stock's entry is the sum of its plans'
 values, the entries make up the total, the limit test is exact, and the displayed percentages
 add up.
 */
module Concentrations {
  import opened Wrappers
  import opened Text
  import opened Decimals
  import opened Money
  import opened Percent
  import opened Plans
  import opened Valuation
  import opened Overview
  import opened OverviewLaws

  type Stock = (string, Dec)

  function SymbolOf(r: Reading): string {
    r.snapshot.data.symbol
  }

  /** Close times shares, summed over one stock. */
  function WorthOf(rs: seq<Reading>, symbol: string): int {
    if rs == [] then 0
    else WorthOf(rs[..|rs| - 1], symbol) + (if SymbolOf(rs[|rs| - 1]) == symbol then Worth([rs[|rs| - 1]]) else 0)
  }

  function Sum(stocks: seq<Stock>): int {
    if stocks == [] then 0 else Micro(stocks[0].1) + Sum(stocks[1..])
  }

  /** The recorded value of a stock, zero when it has no entry. */
  function Recorded(stocks: seq<Stock>, symbol: string): int {
    if stocks == [] then 0
    else if stocks[0].0 == symbol then Micro(stocks[0].1)
    else Recorded(stocks[1..], symbol)
  }

  predicate AboveZero(d: Dec) {
    Small(d) && !d.neg && d.coef > 0
  }

  predicate AllPositive(stocks: seq<Stock>) {
    forall i :: 0 <= i < |stocks| ==> AboveZero(stocks[i].1)
  }

  predicate Distinct(stocks: seq<Stock>) {
    forall i, j :: 0 <= i < j < |stocks| ==> stocks[i].0 != stocks[j].0
  }

  function Names(stocks: seq<Stock>): set<string> {
    set i | 0 <= i < |stocks| :: stocks[i].0
  }

  lemma {:induction false} NamesCons(x: Stock, xs: seq<Stock>)
    ensures Names([x] + xs) == {x.0} + Names(xs)
  {
    var all := [x] + xs;
    assert forall i :: 0 <= i < |xs| ==> all[i + 1] == xs[i];
    forall name | name in {x.0} + Names(xs)
      ensures name in Names(all)
    {
      if name == x.0 {
        assert all[0].0 == name;
      } else {
        var i :| 0 <= i < |xs| && xs[i].0 == name;
        assert all[i + 1].0 == name;
      }
    }
  }

  lemma {:induction false} PositiveUnits(d: Dec)
    requires AboveZero(d)
    ensures Micro(d) == Units(d) > 0 && d.coef <= Units(d)
  {
    AtZero(d, -6);
  }

  lemma {:induction false} UnitsPositive(d: Dec)
    requires Small(d) && Units(d) > 0
    ensures AboveZero(d)
  {
    AtZero(d, -6);
  }

  lemma {:induction false} SumAtLeast(stocks: seq<Stock>)
    requires AllPositive(stocks)
    ensures 0 <= Sum(stocks)
    ensures forall i :: 0 <= i < |stocks| ==> Micro(stocks[i].1) <= Sum(stocks)
  {
    if stocks == [] {
    } else {
      PositiveUnits(stocks[0].1);
      SumAtLeast(stocks[1..]);
    }
  }

  lemma {:induction false} AddPositive(a: Dec, value: Dec, room: nat)
    requires (AboveZero(a) || a == ZERO) && AboveZero(value) && Micro(a) + Micro(value) < room <= E40
    ensures AboveZero(Add(a, value, PREC)) && Micro(Add(a, value, PREC)) == Micro(a) + Micro(value)
  {
    PowersOfTen();
    AtZero(a, -6);
    AtZero(value, -6);
    AddIsExact(a, value, PREC);
    UnitsPositive(Add(a, value, PREC));
  }

  lemma {:induction false} DistinctTail(x: Stock, rest: seq<Stock>)
    ensures Distinct([x] + rest) <==> Distinct(rest) && x.0 !in Names(rest)
  {
    var all := [x] + rest;
    assert forall i :: 0 <= i < |rest| ==> all[i + 1] == rest[i];
    if Distinct(rest) && x.0 !in Names(rest) {
      DistinctCons(x, rest);
    }
    if Distinct(all) {
      forall i | 0 <= i < |rest|
        ensures rest[i].0 != x.0
      {
        assert all[0].0 != all[i + 1].0;
      }
    }
  }

  /** Crediting adds no second entry for a stock. */
  lemma {:induction false} CreditNames(stocks: seq<Stock>, symbol: string, value: Dec)
    ensures Names(Credit(stocks, symbol, value)) == Names(stocks) + {symbol}
    ensures Distinct(stocks) ==> Distinct(Credit(stocks, symbol, value))
    decreases |stocks|
  {
    if stocks == [] {
      NamesCons((symbol, Add(ZERO, value, PREC)), []);
    } else {
      var x, rest := stocks[0], stocks[1..];
      assert stocks == [x] + rest;
      NamesCons(x, rest);
      DistinctTail(x, rest);
      if x.0 == symbol {
        NamesCons((symbol, Add(x.1, value, PREC)), rest);
        DistinctTail((symbol, Add(x.1, value, PREC)), rest);
      } else {
        CreditNames(rest, symbol, value);
        NamesCons(x, Credit(rest, symbol, value));
        DistinctTail(x, Credit(rest, symbol, value));
      }
    }
  }

  /** Crediting adds exactly the value. */
  lemma {:induction false} CreditAdds(stocks: seq<Stock>, symbol: string, value: Dec, room: nat)
    requires AllPositive(stocks) && AboveZero(value) && Sum(stocks) + Micro(value) < room <= E40
    ensures var after := Credit(stocks, symbol, value);
            AllPositive(after) && Sum(after) == Sum(stocks) + Micro(value)
    decreases |stocks|
  {
    if stocks == [] {
      AddPositive(ZERO, value, room);
    } else {
      var x, rest := stocks[0], stocks[1..];
      SumAtLeast(rest);
      PositiveUnits(x.1);
      if x.0 == symbol {
        AddPositive(x.1, value, room);
        assert Credit(stocks, symbol, value)[1..] == rest;
      } else {
        CreditAdds(rest, symbol, value, room);
        assert Credit(stocks, symbol, value)[1..] == Credit(rest, symbol, value);
      }
    }
  }

  lemma {:induction false} DistinctCons(x: Stock, after: seq<Stock>)
    requires x.0 !in Names(after) && Distinct(after)
    ensures Distinct([x] + after)
  {
    forall i, j | 0 <= i < j < |[x] + after|
      ensures ([x] + after)[i].0 != ([x] + after)[j].0
    {
      assert ([x] + after)[j] == after[j - 1];
      if i == 0 { assert after[j - 1].0 in Names(after); }
    }
  }

  lemma {:induction false} CreditHolds(stocks: seq<Stock>, symbol: string, value: Dec, room: nat, other: string)
    requires AllPositive(stocks) && AboveZero(value) && Sum(stocks) + Micro(value) < room <= E40
    ensures Recorded(Credit(stocks, symbol, value), other) == Recorded(stocks, other) + (if other == symbol then Micro(value) else 0)
    decreases |stocks|
  {
    if stocks == [] {
      AddPositive(ZERO, value, room);
    } else {
      var x, rest := stocks[0], stocks[1..];
      SumAtLeast(stocks);
      SumAtLeast(rest);
      if x.0 == symbol {
        AddPositive(x.1, value, room);
        assert Credit(stocks, symbol, value)[1..] == rest;
      } else {
        PositiveUnits(x.1);
        CreditHolds(rest, symbol, value, room, other);
        assert Credit(stocks, symbol, value)[1..] == Credit(rest, symbol, value);
      }
    }
  }

  // ---------------------------------------------------------------- the ledger of a summary

  /** The entries: one per stock held, each that stock's exact value, together the total. */
  ghost predicate Ledger(stocks: seq<Stock>, rs: seq<Reading>) {
    && AllPositive(stocks) && Distinct(stocks)
    && Names(stocks) == Symbols(rs)
    && Sum(stocks) == Worth(rs)
    && forall symbol :: Recorded(stocks, symbol) == WorthOf(rs, symbol)
  }

  function Symbols(rs: seq<Reading>): set<string> {
    if rs == [] then {} else Symbols(rs[..|rs| - 1]) + {SymbolOf(rs[|rs| - 1])}
  }

  lemma {:induction false} WorthOfOne(r: Reading)
    ensures Worth([r]) == Close(r) * r.snapshot.data.shares
  {
    assert [r][..0] == [];
  }

  lemma {:induction false} LedgerStep(stocks: seq<Stock>, front: seq<Reading>, r: Reading, room: nat)
    requires Ledger(stocks, front) && Faithful(r) && r.quality == Valid
    requires Worth(front) <= room && room + E27 <= E40
    ensures var after := Credit(stocks, SymbolOf(r), AmountOf(r.value));
            && AllPositive(after) && Distinct(after) && Names(after) == Names(stocks) + {SymbolOf(r)}
            && Sum(after) == Worth(front) + Worth([r])
            && forall symbol :: Recorded(after, symbol) == WorthOf(front, symbol) + (if symbol == SymbolOf(r) then Worth([r]) else 0)
  {
    var value := AmountOf(r.value);
    ValueAdds(r);
    WorthOfOne(r);
    UnitsPositive(value);
    CreditNames(stocks, SymbolOf(r), value);
    CreditAdds(stocks, SymbolOf(r), value, E40);
    forall symbol
      ensures Recorded(Credit(stocks, SymbolOf(r), value), symbol) ==
              WorthOf(front, symbol) + (if symbol == SymbolOf(r) then Worth([r]) else 0)
    {
      CreditHolds(stocks, SymbolOf(r), value, E40, symbol);
    }
  }

  lemma {:induction false} LedgerSnoc(after: seq<Stock>, rs: seq<Reading>, stocks: seq<Stock>, front: seq<Reading>, r: Reading)
    requires rs != [] && front == rs[..|rs| - 1] && r == rs[|rs| - 1] && Names(stocks) == Symbols(front)
    requires AllPositive(after) && Distinct(after) && Names(after) == Names(stocks) + {SymbolOf(r)}
    requires Sum(after) == Worth(front) + Worth([r])
    requires forall symbol :: Recorded(after, symbol) == WorthOf(front, symbol) + (if symbol == SymbolOf(r) then Worth([r]) else 0)
    ensures Ledger(after, rs)
  {
    WorthOfOne(r);
    forall symbol
      ensures Recorded(after, symbol) == WorthOf(rs, symbol)
    {
      assert WorthOf(rs, symbol) == WorthOf(front, symbol) + (if SymbolOf(r) == symbol then Worth([r]) else 0);
    }
  }

  lemma {:induction false} EmptyLedger()
    ensures Ledger([], [])
  {
  }

  /** The dictionary the summary builds is the exact ledger of its readings. */
  lemma {:induction false} StocksAreLedger(rs: seq<Reading>)
    requires Good(rs) && |rs| <= E13
    ensures Ledger(Stocks(rs), rs)
  {
    if rs == [] {
      EmptyLedger();
    } else {
      var front, r := rs[..|rs| - 1], rs[|rs| - 1];
      GoodFront(rs);
      StocksAreLedger(front);
      WorthHasRoom(front);
      LedgerStep(Stocks(front), front, r, Room(|front|));
      LedgerSnoc(Stocks(rs), rs, Stocks(front), front, r);
    }
  }

  lemma {:induction false} WorthHasRoom(front: seq<Reading>)
    requires Good(front) && |front| + 1 <= E13
    ensures Worth(front) <= Room(|front|) && Room(|front|) + E27 <= E40
  {
    TotalValueIsExact(front);
    RoomFits(|front| + 1);
  }

  // ---------------------------------------------------------------- sorting

  lemma {:induction false} InsertCount(x: Stock, xs: seq<Stock>)
    ensures multiset(Insert(x, xs)) == multiset(xs) + multiset{x} && |Insert(x, xs)| == |xs| + 1
  {
    if xs != [] && !Ahead(x, xs[0]) {
      assert xs == [xs[0]] + xs[1..];
      InsertCount(x, xs[1..]);
    }
  }

  lemma {:induction false} InsertSum(x: Stock, xs: seq<Stock>)
    ensures Sum(Insert(x, xs)) == Micro(x.1) + Sum(xs)
  {
    if xs != [] && !Ahead(x, xs[0]) {
      InsertSum(x, xs[1..]);
      assert ([xs[0]] + Insert(x, xs[1..]))[1..] == Insert(x, xs[1..]);
    } else {
      assert ([x] + xs)[1..] == xs;
    }
  }

  /** Sorting rearranges. */
  lemma {:induction false} SortedKeeps(xs: seq<Stock>)
    ensures multiset(Sorted(xs)) == multiset(xs) && Sum(Sorted(xs)) == Sum(xs) && |Sorted(xs)| == |xs|
  {
    if xs == [] {
    } else {
      assert xs == [xs[0]] + xs[1..];
      SortedKeeps(xs[1..]);
      InsertCount(xs[0], Sorted(xs[1..]));
      InsertSum(xs[0], Sorted(xs[1..]));
    }
  }

  ghost predicate InOrder(xs: seq<Stock>) {
    forall i, j :: 0 <= i < j < |xs| ==> Value(xs[i].1) >= Value(xs[j].1)
  }

  lemma {:induction false} InsertOrders(x: Stock, xs: seq<Stock>)
    requires InOrder(xs)
    ensures InOrder(Insert(x, xs))
  {
    if xs != [] && !Ahead(x, xs[0]) {
      InsertOrders(x, xs[1..]);
      InsertCount(x, xs[1..]);
      var rest := Insert(x, xs[1..]);
      forall j | 0 <= j < |rest|
        ensures Value(xs[0].1) >= Value(rest[j].1)
      {
        assert rest[j] in multiset(rest);
        if rest[j] != x {
          assert rest[j] in multiset(xs[1..]);
          assert rest[j] in xs[1..];
        }
      }
    }
  }

  /** Larger holdings come first. */
  lemma {:induction false} SortedOrders(xs: seq<Stock>)
    ensures InOrder(Sorted(xs))
  {
    if xs == [] {
    } else {
      SortedOrders(xs[1..]);
      InsertOrders(xs[0], Sorted(xs[1..]));
    }
  }

  // ---------------------------------------------------------------- concentrations

  lemma {:induction false} SortedMembers(xs: seq<Stock>, i: nat)
    requires i < |Sorted(xs)|
    ensures Sorted(xs)[i] in xs
  {
    SortedKeeps(xs);
    assert Sorted(xs)[i] in multiset(Sorted(xs));
  }

  lemma {:induction false} RecordedAt(stocks: seq<Stock>, i: nat)
    requires Distinct(stocks) && i < |stocks|
    ensures Recorded(stocks, stocks[i].0) == Micro(stocks[i].1)
  {
    if i == 0 {
    } else {
      assert stocks[0].0 != stocks[i].0;
      RecordedAt(stocks[1..], i - 1);
    }
  }

  /** The holdings of a summary in display order, and the total they are shares of. */
  lemma {:induction false} HoldingsAreExact(rs: seq<Reading>, i: nat)
    requires Good(rs) && rs != [] && |rs| <= E13 && i < |Sorted(Stocks(rs))|
    ensures var x, total := Sorted(Stocks(rs))[i], TotalValue(rs);
            && AboveZero(x.1) && Units(x.1) == WorthOf(rs, x.0)
            && AboveZero(total) && Units(total) == Worth(rs) < E40
            && Units(x.1) <= Units(total)
  {
    var stocks := Stocks(rs);
    var x := Sorted(stocks)[i];
    StocksAreLedger(rs);
    SortedMembers(stocks, i);
    var k :| 0 <= k < |stocks| && stocks[k] == x;
    RecordedAt(stocks, k);
    PositiveUnits(x.1);
    SumAtLeast(stocks);
    TotalValueIsExact(rs);
    UnitsPositive(TotalValue(rs));
    WorthFits(rs);
  }

  lemma {:induction false} WorthFits(rs: seq<Reading>)
    requires Good(rs) && rs != [] && |rs| <= E13
    ensures Worth(rs) < E40
  {
    var front, r := rs[..|rs| - 1], rs[|rs| - 1];
    GoodFront(rs);
    WorthHasRoom(front);
    ValueAdds(r);
  }

  lemma {:induction false} WeightsAt(stocks: seq<Stock>, total: Dec, limit: Option<string>, i: nat)
    requires total.coef > 0 && i < |stocks|
    ensures |Weights(stocks, total, limit)| == |stocks| && Weights(stocks, total, limit)[i] == Weigh(stocks[i], total, limit)
  {
    var n := |stocks| - 1;
    assert stocks == stocks[..n] + [stocks[n]];
    WeightsSnoc(stocks[..n], stocks[n], total, limit);
    if n == 0 {
    } else {
      WeightsAt(stocks[..n], total, limit, if i < n then i else 0);
    }
  }

  /** A concentration limit: a positive decimal of at most 100. */
  predicate Limit(s: string) {
    Priced(s) && Small(Number(s)) && Units(Number(s)) <= E8
  }

  lemma {:induction false} WeighIsExact(x: Stock, total: Dec, limit: string)
    requires AboveZero(x.1) && AboveZero(total) && Units(x.1) <= Units(total) < 2 * E32 && Limit(limit)
    ensures Weigh(x, total, Some(limit)).triggered <==> Units(x.1) * E8 >= Units(Number(limit)) * Units(total)
  {
    PricedUnits(limit);
    PositiveUnits(x.1);
    PowersOfTen();
    TriggerIsExact(x.1, total, Number(limit), PREC);
  }

  /**
   The concentration warning is exact: a stock triggers precisely when its value is at least
   the limit's percentage of the total, as long as the total is below 2 * 10^32 micro-units.
   */
  lemma {:induction false} TriggersAreExact(rs: seq<Reading>, limit: string, i: nat)
    requires Good(rs) && rs != [] && |rs| <= E13 && Limit(limit) && Worth(rs) < 2 * E32
    requires i < |Sorted(Stocks(rs))|
    ensures var ws := Weights(Sorted(Stocks(rs)), TotalValue(rs), Some(limit));
            && i < |ws|
            && (ws[i].triggered <==> WorthOf(rs, ws[i].symbol) * E8 >= Units(Number(limit)) * Worth(rs))
  {
    HoldingsAreExact(rs, i);
    var x, total := Sorted(Stocks(rs))[i], TotalValue(rs);
    WeightsAt(Sorted(Stocks(rs)), total, Some(limit), i);
    WeighIsExact(x, total, limit);
    assert Weigh(x, total, Some(limit)).symbol == x.0;
  }

  /** Two hundred thousand plans stay below that. */
  lemma {:induction false} ManyPlansFit(rs: seq<Reading>)
    requires Good(rs) && |rs| <= 200000
    ensures Worth(rs) < 2 * E32
  {
    if rs == [] {
    } else {
      var front, r := rs[..|rs| - 1], rs[|rs| - 1];
      GoodFront(rs);
      TotalValueIsExact(front);
      ValueAdds(r);
    }
  }

  // ---------------------------------------------------------------- displayed percentages

  function Hundredths(stocks: seq<Stock>, total: Dec): seq<nat>
    requires total.coef > 0
  {
    if stocks == [] then []
    else Hundredths(stocks[..|stocks| - 1], total) + [Shown(stocks[|stocks| - 1].1, total, PREC)]
  }

  function UnitsOfAll(stocks: seq<Stock>): (us: seq<nat>)
    ensures |us| == |stocks|
  {
    if stocks == [] then []
    else
      var u := Micro(stocks[|stocks| - 1].1);
      UnitsOfAll(stocks[..|stocks| - 1]) + [if u < 0 then 0 else u]
  }

  ghost predicate Within(stocks: seq<Stock>, total: Dec) {
    && AboveZero(total) && Units(total) < E40
    && forall i :: 0 <= i < |stocks| ==> AboveZero(stocks[i].1) && Units(stocks[i].1) <= Units(total)
  }

  lemma {:induction false} WithinFront(stocks: seq<Stock>, total: Dec)
    requires Within(stocks, total) && stocks != []
    ensures Within(stocks[..|stocks| - 1], total)
    ensures var x := stocks[|stocks| - 1]; AboveZero(x.1) && Units(x.1) <= Units(total)
  {
  }

  lemma {:induction false} OneIsNear(x: Dec, total: Dec)
    requires AboveZero(x) && AboveZero(total) && Units(x) <= Units(total) < E40
    ensures Units(x) > 0 && Units(total) > 0
    ensures var off := Off(Shown(x, total, PREC), Units(x), Units(total));
            -((E35 + 1) * Units(total)) <= off * E35 <= (E35 + 1) * Units(total)
    ensures Cents(Share(x, total, PREC)) == Dec(false, Shown(x, total, PREC), -2)
  {
    PowersOfTen();
    PositiveUnits(x);
    PositiveUnits(total);
    ShownIsNear(x, total, PREC);
  }

  lemma {:induction false} NearSnoc(shown: seq<nat>, units: seq<nat>, h: nat, u: nat, total: nat, w: nat)
    requires |shown| == |units| && AllNear(shown, units, total, w)
    requires -((w + 1) * total) <= Off(h, u, total) * w <= (w + 1) * total
    ensures AllNear(shown + [h], units + [u], total, w)
  {
  }

  lemma {:induction false} NearStep(shown: seq<nat>, units: seq<nat>, x: Dec, total: Dec)
    requires |shown| == |units| && AboveZero(x) && AboveZero(total) && 0 < Units(x) <= Units(total) < E40
    requires AllNear(shown, units, Units(total), E35)
    ensures AllNear(shown + [Shown(x, total, PREC)], units + [Units(x)], Units(total), E35)
  {
    OneIsNear(x, total);
    NearSnoc(shown, units, Shown(x, total, PREC), Units(x), Units(total), E35);
  }

  lemma {:induction false} AllAreNear(stocks: seq<Stock>, total: Dec, whole: nat)
    requires Within(stocks, total) && whole == Units(total)
    ensures |Hundredths(stocks, total)| == |stocks|
    ensures AllNear(Hundredths(stocks, total), UnitsOfAll(stocks), whole, E35)
    decreases |stocks|
  {
    if stocks == [] {
    } else {
      var n := |stocks| - 1;
      WithinFront(stocks, total);
      AllAreNear(stocks[..n], total, whole);
      var x := stocks[n].1;
      PositiveUnits(x);
      NearStep(Hundredths(stocks[..n], total), UnitsOfAll(stocks[..n]), x, total);
    }
  }

  lemma {:induction false} SumSnoc(stocks: seq<Stock>, x: Stock)
    ensures Sum(stocks + [x]) == Sum(stocks) + Micro(x.1)
  {
    if stocks == [] {
      assert [] + [x] == [x];
    } else {
      assert (stocks + [x])[1..] == stocks[1..] + [x];
      SumSnoc(stocks[1..], x);
    }
  }

  lemma {:induction false} UnitsAddUp(stocks: seq<Stock>)
    requires AllPositive(stocks)
    ensures SumNat(UnitsOfAll(stocks)) == Sum(stocks)
  {
    if stocks == [] {
    } else {
      var n := |stocks| - 1;
      UnitsAddUp(stocks[..n]);
      PositiveUnits(stocks[n].1);
      SumSnoc(stocks[..n], stocks[n]);
      assert stocks == stocks[..n] + [stocks[n]];
    }
  }

  lemma {:induction false} HundredthsSnoc(stocks: seq<Stock>, x: Stock, total: Dec)
    requires total.coef > 0
    ensures Hundredths(stocks + [x], total) == Hundredths(stocks, total) + [Shown(x.1, total, PREC)]
  {
    assert (stocks + [x])[..|stocks|] == stocks;
  }

  lemma {:induction false} HundredthsAt(stocks: seq<Stock>, total: Dec, i: nat)
    requires total.coef > 0 && i < |stocks|
    ensures |Hundredths(stocks, total)| == |stocks| && Hundredths(stocks, total)[i] == Shown(stocks[i].1, total, PREC)
  {
    var n := |stocks| - 1;
    HundredthsSnoc(stocks[..n], stocks[n], total);
    assert stocks == stocks[..n] + [stocks[n]];
    if n == 0 {
    } else {
      HundredthsAt(stocks[..n], total, if i < n then i else 0);
    }
  }

  lemma {:induction false} HoldingsWithin(rs: seq<Reading>)
    requires Good(rs) && rs != [] && |rs| <= E13
    ensures Within(Sorted(Stocks(rs)), TotalValue(rs)) && AllPositive(Sorted(Stocks(rs)))
    ensures Sum(Sorted(Stocks(rs))) == Worth(rs) == Units(TotalValue(rs)) && |Sorted(Stocks(rs))| == |Stocks(rs)|
  {
    StocksAreLedger(rs);
    SortedKeeps(Stocks(rs));
    TotalValueIsExact(rs);
    UnitsPositive(TotalValue(rs));
    WorthFits(rs);
    forall i | 0 <= i < |Sorted(Stocks(rs))|
      ensures AboveZero(Sorted(Stocks(rs))[i].1) && Units(Sorted(Stocks(rs))[i].1) <= Units(TotalValue(rs))
    {
      HoldingsAreExact(rs, i);
    }
  }

  /**
   The displayed percentages are whole hundredths that add up to 100 within half a hundredth
   per stock: within 0.5 for at most a hundred stocks.
   */
  lemma {:induction false} PercentagesAddUp(rs: seq<Reading>, limit: Option<string>) returns (hundredths: seq<nat>)
    requires Good(rs) && rs != [] && |rs| <= E13
    ensures var ws := Weights(Sorted(Stocks(rs)), TotalValue(rs), limit);
            && |hundredths| == |ws| == |Stocks(rs)|
            && forall i :: 0 <= i < |ws| ==> ws[i].percent == Show(Dec(false, hundredths[i], -2))
    ensures 2 * (SumNat(hundredths) - 10000) <= |Stocks(rs)| && 2 * (10000 - SumNat(hundredths)) <= |Stocks(rs)|
  {
    var stocks, total := Sorted(Stocks(rs)), TotalValue(rs);
    HoldingsWithin(rs);
    PositiveUnits(total);
    AllAreNear(stocks, total, Units(total));
    UnitsAddUp(stocks);
    hundredths := Hundredths(stocks, total);
    FewEntries(rs);
    ShownAddUp(hundredths, UnitsOfAll(stocks), Units(total), E35);
    SomeStock(rs);
    WeightsAt(stocks, total, limit, 0);
    forall i | 0 <= i < |stocks|
      ensures Weights(stocks, total, limit)[i].percent == Show(Dec(false, hundredths[i], -2))
    {
      WeightsAt(stocks, total, limit, i);
      HundredthsAt(stocks, total, i);
      OneIsNear(stocks[i].1, total);
    }
  }

  lemma {:induction false} CreditLength(stocks: seq<Stock>, symbol: string, value: Dec)
    ensures 0 < |Credit(stocks, symbol, value)| <= |stocks| + 1
    decreases |stocks|
  {
    if stocks != [] && stocks[0].0 != symbol {
      CreditLength(stocks[1..], symbol, value);
    }
  }

  lemma {:induction false} StocksLength(rs: seq<Reading>)
    ensures |Stocks(rs)| <= |rs| && (rs != [] ==> Stocks(rs) != [])
  {
    if rs == [] {
    } else {
      StocksLength(rs[..|rs| - 1]);
      CreditLength(Stocks(rs[..|rs| - 1]), SymbolOf(rs[|rs| - 1]), AmountOf(rs[|rs| - 1].value));
    }
  }

  lemma {:induction false} FewEntries(rs: seq<Reading>)
    requires |rs| <= E13
    ensures |Stocks(rs)| < E35
  {
    StocksLength(rs);
  }

  lemma {:induction false} SomeStock(rs: seq<Reading>)
    requires rs != []
    ensures Sorted(Stocks(rs)) != []
  {
    StocksLength(rs);
    SortedKeeps(Stocks(rs));
  }

  lemma {:induction false} NamesCount(stocks: seq<Stock>)
    requires Distinct(stocks)
    ensures |Names(stocks)| == |stocks|
  {
    if stocks == [] {
      assert Names(stocks) == {};
    } else {
      assert stocks == [stocks[0]] + stocks[1..];
      NamesCons(stocks[0], stocks[1..]);
      DistinctTail(stocks[0], stocks[1..]);
      NamesCount(stocks[1..]);
    }
  }

  /** There is one entry per stock held. */
  lemma {:induction false} OneEntryPerStock(rs: seq<Reading>)
    requires Good(rs) && |rs| <= E13
    ensures |Stocks(rs)| == |Symbols(rs)|
  {
    StocksAreLedger(rs);
    NamesCount(Stocks(rs));
  }
}
