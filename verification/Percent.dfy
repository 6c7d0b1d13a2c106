/**
 The share of a total, `value / total * 100` in a context of `prec` digits, as the portfolio
 summary computes, displays and compares it; set against the exact ratio of micro-units.
 */
module Percent {
  import opened Decimals
  import opened Money

  function Share(value: Dec, total: Dec, prec: nat): Dec
    requires total.coef > 0
  {
    Mul(Div(value, total, prec), Whole(100), prec)
  }

  // ---------------------------------------------------------------- the rounded ratio

  lemma {:induction false} Cancel(a: int, b: int, d: nat)
    requires d > 0
    ensures a * d == b * d ==> a == b
    ensures a * d < b * d ==> a < b
  {
    MulMono(b, a, d);
  }

  lemma {:induction false} Swap(a: int, b: int, c: int)
    ensures a * b * c == a * c * b == a * (b * c)
  {
  }

  /** Rounding depends only on the ratio. */
  lemma {:induction false} HalfEvenRatio(n: nat, d: nat, m: nat, e: nat)
    requires d > 0 && e > 0 && n * e == m * d
    ensures HalfEven(n, d) == HalfEven(m, e)
  {
    var q, r := n / d, n % d;
    var s := m - q * e;
    assert n == q * d + r;
    RemainderRatio(n, d, m, e, q, r);
    Between(r, d, s, e);
    DivUnique(m, e, q, s);
  }

  lemma {:induction false} RemainderRatio(n: nat, d: nat, m: nat, e: nat, q: nat, r: nat)
    requires n * e == m * d && n == q * d + r
    ensures r * e == (m - q * e) * d
  {
    assert (q * d + r) * e == q * d * e + r * e;
    Swap(q, d, e);
    assert (m - q * e) * d == m * d - q * e * d;
  }

  lemma {:induction false} Between(r: nat, d: nat, s: int, e: nat)
    requires d > 0 && e > 0 && r < d && r * e == s * d
    ensures 0 <= s < e
    ensures 2 * r > d <==> 2 * s > e
    ensures 2 * r == d <==> 2 * s == e
  {
    MulMono(s, -1, d);
    assert r * e >= 0;
    MulMono(r + 1, d, e);
    assert (r + 1) * e == r * e + e;
    Swap(d, e, 1);
    assert d * e == e * d;
    Cancel(s, e, d);
    assert 2 * r * e == 2 * s * d;
    Cancel(2 * r, d, e);
    Cancel(d, 2 * r, e);
    Cancel(2 * s, e, d);
    Cancel(e, 2 * s, d);
  }

  /** What the scale of a quotient guarantees: a full-precision integer part. */
  lemma {:induction false} RoundedRange(num: nat, den: nat, prec: nat)
    requires den > 0 && prec > 0 && num >= Pow(prec) * den
    ensures var (coef, drop) := Rounded(num, den, prec); Pow(prec - 1) <= coef <= Pow(prec) && drop >= 1
    ensures var (coef, drop) := Rounded(num, den, prec); num >= Pow(prec - 1 + drop) * den
  {
    var whole := num / den;
    assert num == whole * den + num % den;
    MulMono(whole + 1, Pow(prec), den);
    assert (whole + 1) * den == whole * den + den;
    DigitsBounds(whole);
    var len := |Digits(whole)|;
    PowLess(prec, len);
    var drop := len - prec;
    PowAdd(prec - 1, drop);
    PowAdd(prec, drop);
    Positive(den, Pow(drop));
    MulMono(Pow(len - 1), whole, den);
    MulMono(whole + 1, Pow(len), den);
    Swap(Pow(prec - 1), Pow(drop), den);
    Swap(Pow(prec), Pow(drop), den);
    assert den * Pow(drop) == Pow(drop) * den;
    HalfEvenReaches(num, den * Pow(drop), Pow(prec - 1));
    HalfEvenWithin(num, den * Pow(drop), Pow(prec));
  }

  lemma {:induction false} RoundedDrop(num: nat, den: nat, prec: nat)
    requires den > 0 && num < Pow(prec + 2) * den
    ensures Rounded(num, den, prec).1 <= 2
  {
    var whole := num / den;
    assert num == whole * den + num % den;
    MulMono(Pow(prec + 2), whole, den);
    FewDigits(whole, prec + 2);
    DigitsBounds(whole);
  }

  lemma {:induction false} QuotientRange(a: nat, b: nat, prec: nat)
    requires 0 < a < Pow(prec) && b > 0 && prec > 0
    ensures var shift := Shift(a, b, prec);
            && shift > 0
            && var (coef, drop) := Quotient(a, b, prec, shift);
            && Pow(prec - 1) <= coef <= Pow(prec) && 1 <= drop <= 2
            && Quotient(a, b, prec, shift) == Rounded(a * Pow(shift), b, prec)
            && (drop == 2 ==> a * Pow(shift) >= Pow(prec + 1) * b)
  {
    var la, lb := |Digits(a)|, |Digits(b)|;
    DigitsBounds(a);
    DigitsBounds(b);
    FewDigits(a, prec);
    var shift := Shift(a, b, prec);
    ScaleBelow(a, la, b, lb, prec, shift);
    ScaleAbove(a, la, b, lb, prec + 2, shift);
    RoundedRange(a * Pow(shift), b, prec);
    RoundedDrop(a * Pow(shift), b, prec);
  }

  lemma {:induction false} ScaleBelow(a: nat, la: nat, b: nat, lb: nat, prec: nat, shift: nat)
    requires la > 0 && Pow(la - 1) <= a && b < Pow(lb) && la - 1 + shift == lb + prec
    ensures Pow(prec) * b <= a * Pow(shift)
  {
    PowAdd(la - 1, shift);
    PowAdd(lb, prec);
    Sandwich(Pow(la - 1), a, Pow(shift), b, Pow(lb), Pow(prec));
  }

  lemma {:induction false} Sandwich(x: nat, a: nat, p: nat, b: nat, y: nat, q: nat)
    requires x <= a && b <= y && x * p == y * q
    ensures q * b <= a * p
  {
    MulMono(x, a, p);
    MulMono(b, y, q);
  }

  lemma {:induction false} StrictSandwich(a: nat, x: nat, p: nat, y: nat, b: nat, q: nat)
    requires a < x && y <= b && x * p == y * q && p > 0
    ensures a * p < q * b
  {
    MulMono(a + 1, x, p);
    assert (a + 1) * p == a * p + p;
    MulMono(y, b, q);
  }

  lemma {:induction false} ScaleAbove(a: nat, la: nat, b: nat, lb: nat, more: nat, shift: nat)
    requires a < Pow(la) && lb > 0 && Pow(lb - 1) <= b && la + shift == lb - 1 + more
    ensures a * Pow(shift) < Pow(more) * b
  {
    PowAdd(la, shift);
    PowAdd(lb - 1, more);
    StrictSandwich(a, Pow(la), Pow(shift), Pow(lb - 1), b, Pow(more));
  }

  /** The scale at which a share is rounded. */
  function Places(a: Dec, b: Dec, prec: nat): int
    requires b.coef > 0
  {
    var shift := Shift(a.coef, b.coef, prec);
    shift - Quotient(a.coef, b.coef, prec, shift).1 + b.exp - a.exp
  }

  lemma {:induction false} PlacesRange(a: Dec, b: Dec, prec: nat)
    requires Small(a) && Small(b) && !a.neg && !b.neg && prec > 0
    requires 0 < a.coef < Pow(prec) && Units(a) <= Units(b) && b.coef > 0
    ensures Places(a, b, prec) >= prec - 1
    ensures Units(a) < Units(b) ==> Places(a, b, prec) >= prec
  {
    QuotientRange(a.coef, b.coef, prec);
    var la, lb := |Digits(a.coef)|, |Digits(b.coef)|;
    MagnitudeOrder(a, la, b, lb);
    var shift := Shift(a.coef, b.coef, prec);
    if Places(a, b, prec) == prec - 1 {
      TopScale(a, b, prec, shift);
    }
  }

  lemma {:induction false} MagnitudeOrder(a: Dec, la: nat, b: Dec, lb: nat)
    requires Small(a) && Small(b) && !a.neg && !b.neg && a.coef > 0 && b.coef > 0 && Units(a) <= Units(b)
    requires la == |Digits(a.coef)| && lb == |Digits(b.coef)|
    ensures la + a.exp <= lb + b.exp
  {
    AtTimes(a, -6);
    AtTimes(b, -6);
    DigitsBounds(a.coef);
    DigitsBounds(b.coef);
    PowerOrder(a.coef, la, a.exp + 6, b.coef, lb, b.exp + 6);
  }

  lemma {:induction false} PowerOrder(a: nat, la: nat, x: nat, b: nat, lb: nat, y: nat)
    requires la > 0 && Pow(la - 1) <= a && b < Pow(lb) && a * Pow(x) <= b * Pow(y)
    ensures la + x <= lb + y
  {
    PowAdd(la - 1, x);
    PowAdd(lb, y);
    MulMono(Pow(la - 1), a, Pow(x));
    StrictMono(b, Pow(lb), Pow(y));
    PowLess(la - 1 + x, lb + y);
  }

  lemma {:induction false} StrictMono(a: nat, b: nat, d: nat)
    requires a < b && d > 0
    ensures a * d < b * d
  {
  }

  lemma {:induction false} TopScale(a: Dec, b: Dec, prec: nat, shift: nat)
    requires Small(a) && Small(b) && !a.neg && !b.neg
    requires a.coef * Pow(shift) >= Pow(prec + 1) * b.coef && shift + b.exp == a.exp + prec + 1
    ensures Units(a) >= Units(b)
  {
    AtTimes(a, -6);
    AtTimes(b, -6);
    TopRatio(a.coef, a.exp + 6, b.coef, b.exp + 6, prec + 1, shift);
  }

  lemma {:induction false} PowSwap(s: nat, y: nat, x: nat, t: nat)
    requires s + y == x + t
    ensures Pow(s) * Pow(y) == Pow(x) * Pow(t)
  {
    PowAdd(s, y);
    PowAdd(x, t);
  }

  lemma {:induction false} TopRatio(a: nat, x: nat, b: nat, y: nat, top: nat, shift: nat)
    requires a * Pow(shift) >= Pow(top) * b && shift + y == x + top
    ensures a * Pow(x) >= b * Pow(y)
  {
    PowSwap(shift, y, x, top);
    Uncross(a, Pow(shift), Pow(x), b, Pow(y), Pow(top));
  }

  lemma {:induction false} Uncross(a: nat, s: nat, x: nat, b: nat, y: nat, t: nat)
    requires a * s >= t * b && s * y == x * t && t > 0
    ensures a * x >= b * y
  {
    MulMono(t * b, a * s, y);
    Swap(a, s, y);
    Swap(a, x, t);
    assert t * b * y == b * y * t;
    Cancel(a * x, b * y, t);
  }

  lemma {:induction false} RatioScales(a: nat, x: nat, b: nat, y: nat, shift: nat, places: nat, drop: nat)
    requires shift + y == x + places + drop
    ensures (a * Pow(shift)) * (b * Pow(y)) == (a * Pow(x) * Pow(places)) * (b * Pow(drop))
  {
    var xe := x + places;
    PowAdd(x, places);
    PowSwap(shift, y, xe, drop);
    CrossScales(a, Pow(shift), b, Pow(y), Pow(x), Pow(places), Pow(xe), Pow(drop));
  }

  lemma {:induction false} CrossScales(a: nat, s: nat, b: nat, y: nat, x: nat, e: nat, xe: nat, d: nat)
    requires xe == x * e && s * y == xe * d
    ensures (a * s) * (b * y) == (a * x * e) * (b * d)
  {
    Cross(a, s, b, y);
    Swap(a, x, e);
    Cross(a, xe, b, d);
  }

  lemma {:induction false} Cross(a: int, p: int, b: int, q: int)
    ensures (a * p) * (b * q) == (a * b) * (p * q)
  {
    calc {
      (a * p) * (b * q);
      a * (p * (b * q));
      { assert p * (b * q) == b * (p * q); }
      a * (b * (p * q));
      (a * b) * (p * q);
    }
  }

  /** A ratio of micro-units, rounded half to even at so many places. */
  function Ratio(u: nat, places: nat, t: nat): nat
    requires t > 0
  {
    HalfEven(u * Pow(places), t)
  }

  /** A positive amount and a total it is part of. */
  predicate Part(value: Dec, total: Dec, prec: nat) {
    && prec > 9 && Small(value) && Small(total) && !value.neg && !total.neg
    && 0 < value.coef < Pow(prec) && total.coef > 0 && 0 < Units(value) <= Units(total)
  }

  lemma {:induction false} QuotientIsRatio(a: nat, x: nat, b: nat, y: nat, shift: nat, places: nat, drop: nat, u: nat, t: nat)
    requires shift + y == x + places + drop && b > 0 && u == a * Pow(x) && t == b * Pow(y) && t > 0
    ensures Dropped(a * Pow(shift), b, drop) == Ratio(u, places, t)
  {
    Positive(b, Pow(drop));
    RatioScales(a, x, b, y, shift, places, drop);
    HalfEvenRatio(a * Pow(shift), b * Pow(drop), u * Pow(places), t);
  }

  /** A quotient is the exact ratio of the micro-units, rounded half to even at its scale. */
  lemma {:induction false} DivIsRatio(a: Dec, b: Dec, prec: nat)
    requires Part(a, b, prec)
    ensures var places := Places(a, b, prec);
            && places >= prec - 1
            && (Units(a) < Units(b) ==> places >= prec)
            && Div(a, b, prec) == Dec(false, Ratio(Units(a), places, Units(b)), -places)
            && Pow(prec - 1) <= Ratio(Units(a), places, Units(b)) <= Pow(prec)
  {
    AtTimes(a, -6);
    AtTimes(b, -6);
    PlacesRange(a, b, prec);
    QuotientRange(a.coef, b.coef, prec);
    var shift := Shift(a.coef, b.coef, prec);
    var drop := Quotient(a.coef, b.coef, prec, shift).1;
    var places := Places(a, b, prec);
    QuotientIsRatio(a.coef, a.exp + 6, b.coef, b.exp + 6, shift, places, drop, Units(a), Units(b));
  }

  // ---------------------------------------------------------------- comparing with a limit

  lemma {:induction false} HundredDigits(coef: nat, prec: nat)
    requires prec > 0 && Pow(prec - 1) <= coef < Pow(prec)
    ensures |Digits(100 * coef)| == prec + 2
  {
    FewDigits(coef, prec);
    DigitsBounds(coef);
    PowLess(prec - 1, |Digits(coef)|);
    DigitsTimesTen(coef);
    DigitsTimesTen(10 * coef);
    assert 100 * coef == 10 * (10 * coef);
  }

  lemma {:induction false} TopDigits(prec: nat)
    ensures |Digits(Pow(prec))| == prec + 1
  {
    if prec == 0 {
    } else {
      TopDigits(prec - 1);
      DigitsTimesTen(Pow(prec - 1));
    }
  }

  /** Multiplying by a hundred only moves the point. */
  lemma {:induction false} HundredTimes(coef: nat, exp: int, prec: nat) returns (k: nat)
    requires prec > 0 && Pow(prec - 1) <= coef <= Pow(prec)
    ensures var p := Mul(Dec(false, coef, exp), Whole(100), prec);
            k <= 1 && !p.neg && p.exp == exp + 2 + k && p.coef * Pow(k) == coef
  {
    if coef < Pow(prec) {
      k := 0;
      HundredDigits(coef, prec);
      HalfEvenExact(coef, 100);
    } else {
      k := 1;
      HundredTop(prec, exp);
    }
  }

  lemma {:induction false} HundredTop(prec: nat, exp: int)
    requires prec > 0
    ensures Mul(Dec(false, Pow(prec), exp), Whole(100), prec) == Dec(false, Pow(prec - 1), exp + 3)
  {
    TopDigits(prec + 2);
    assert 100 * Pow(prec) == Pow(prec + 2);
    assert Pow(3) == 1000;
    assert Pow(prec + 2) == Pow(prec - 1) * 1000;
    HalfEvenExact(Pow(prec - 1), 1000);
  }

  /** A share is a hundred times the rounded ratio, exactly. */
  lemma {:induction false} ShareShape(value: Dec, total: Dec, prec: nat) returns (places: nat, coef: nat, k: nat)
    requires Part(value, total, prec)
    ensures places == Places(value, total, prec) && coef == Ratio(Units(value), places, Units(total))
    ensures places >= prec - 1 && (Units(value) < Units(total) ==> places >= prec)
    ensures var p := Share(value, total, prec); k <= 1 && !p.neg && p.exp == 2 - places + k && p.coef * Pow(k) == coef
  {
    DivIsRatio(value, total, prec);
    var q := Div(value, total, prec);
    places, coef := Places(value, total, prec), q.coef;
    k := HundredTimes(q.coef, q.exp, prec);
    HundredOf(q, prec, k);
  }

  lemma {:induction false} HundredOf(q: Dec, prec: nat, k: nat)
    requires !q.neg && prec > 0
    requires var p := Mul(Dec(false, q.coef, q.exp), Whole(100), prec);
             k <= 1 && !p.neg && p.exp == q.exp + 2 + k && p.coef * Pow(k) == q.coef
    ensures var p := Mul(q, Whole(100), prec);
            k <= 1 && !p.neg && p.exp == q.exp + 2 + k && p.coef * Pow(k) == q.coef
  {
    assert q == Dec(false, q.coef, q.exp);
  }

  lemma {:induction false} CompareAtScale(p: Dec, k: nat, coef: nat, limit: Dec, places: nat)
    requires !p.neg && p.exp == 2 - places + k && p.coef * Pow(k) == coef
    requires Small(limit) && !limit.neg && places > 8
    ensures Value(p) >= Value(limit) <==> coef >= Units(limit) * Pow(places - 8)
  {
    ScaledTimes(p.coef, k);
    ScaledTimes(limit.coef, limit.exp - (2 - places));
    ValueShifts(false, p.coef, p.exp, k);
    ValueShifts(false, limit.coef, limit.exp, limit.exp - (2 - places));
    LimitScale(limit, places);
    ValueOrder(false, coef, limit.coef * Pow(limit.exp - (2 - places)), 2 - places);
    assert p == Dec(false, p.coef, p.exp) && limit == Dec(false, limit.coef, limit.exp);
  }

  /** Comparing a share with a limit compares the rounded ratio with the limit at its scale. */
  lemma {:induction false} ShareAtLeast(value: Dec, total: Dec, limit: Dec, prec: nat) returns (places: nat)
    requires Part(value, total, prec) && Small(limit) && !limit.neg
    ensures places >= prec - 1 && (Units(value) < Units(total) ==> places >= prec)
    ensures Value(Share(value, total, prec)) >= Value(limit) <==>
            Ratio(Units(value), places, Units(total)) >= Units(limit) * Pow(places - 8)
  {
    var coef, k;
    places, coef, k := ShareShape(value, total, prec);
    CompareAtScale(Share(value, total, prec), k, coef, limit, places);
  }

  lemma {:induction false} LimitScale(limit: Dec, places: nat)
    requires Small(limit) && !limit.neg && places > 8
    ensures limit.coef * Pow(limit.exp - (2 - places)) == Units(limit) * Pow(places - 8)
  {
    AtTimes(limit, -6);
    PowAdd(limit.exp + 6, places - 8);
    Swap(limit.coef, Pow(limit.exp + 6), Pow(places - 8));
  }

  lemma {:induction false} RatioReaches(u: nat, t: nat, limit: nat, scale: nat, hundred: nat)
    requires t > 0 && u * hundred >= limit * t
    ensures HalfEven(u * (hundred * scale), t) >= limit * scale
  {
    MulMono(limit * t, u * hundred, scale);
    Swap(u, hundred, scale);
    Swap(limit, t, scale);
    HalfEvenReaches(u * (hundred * scale), t, limit * scale);
  }

  lemma {:induction false} RatioAtLeast(u: nat, t: nat, limit: nat, places: nat, prec: nat)
    requires 0 < u <= t && places >= prec - 1 && prec > 9 && (u < t ==> places >= prec)
    requires t < 2 * Pow(prec - 8) && limit <= Pow(8)
    ensures Ratio(u, places, t) >= limit * Pow(places - 8) <==> u * Pow(8) >= limit * t
  {
    PowAdd(8, places - 8);
    if u * Pow(8) >= limit * t {
      RatioReaches(u, t, limit, Pow(places - 8), Pow(8));
    } else {
      RatioSmall(u, t, limit, Pow(8));
      PowGrows(prec - 8, places - 8);
      RatioStaysBelow(u, t, limit, Pow(places - 8), Pow(8));
    }
  }

  lemma {:induction false} RatioStaysBelow(u: nat, t: nat, limit: nat, scale: nat, hundred: nat)
    requires t > 0 && u * hundred < limit * t && t < 2 * scale
    ensures HalfEven(u * (hundred * scale), t) < limit * scale
  {
    var num := u * (hundred * scale);
    MulMono(u * hundred + 1, limit * t, scale);
    assert (u * hundred + 1) * scale == u * hundred * scale + scale;
    Swap(u, hundred, scale);
    Swap(limit, t, scale);
    HalfEvenNear(num, t);
    Cancel(HalfEven(num, t), limit * scale, t);
  }

  lemma {:induction false} RatioSmall(u: nat, t: nat, limit: nat, hundred: nat)
    requires u * hundred < limit * t && limit <= hundred
    ensures u < t
  {
    MulMono(limit, hundred, t);
    assert hundred * t == t * hundred;
    Cancel(u, t, hundred);
  }

  /**
   The concentration test is exact: although the share is a rounded quotient, it reaches a
   limit of at most 100 exactly when the ratio does, as long as the total stays below
   2 * 10^(prec - 8) micro-units.
   */
  lemma {:induction false} TriggerIsExact(value: Dec, total: Dec, limit: Dec, prec: nat)
    requires Part(value, total, prec) && Units(total) < 2 * Pow(prec - 8)
    requires Small(limit) && !limit.neg && 0 <= Units(limit) <= Pow(8)
    ensures Value(Share(value, total, prec)) >= Value(limit) <==> Units(value) * Pow(8) >= Units(limit) * Units(total)
  {
    var places := ShareAtLeast(value, total, limit, prec);
    RatioAtLeast(Units(value), Units(total), Units(limit), places, prec);
  }

  // ---------------------------------------------------------------- displayed shares

  /** The displayed share, in hundredths of a percent. */
  function Shown(value: Dec, total: Dec, prec: nat): nat
    requires total.coef > 0
  {
    Cents(Share(value, total, prec)).coef
  }

  /** Displaying rounds the rounded ratio once more, at four places. */
  lemma {:induction false} ShownIsRounded(value: Dec, total: Dec, prec: nat) returns (places: nat)
    requires Part(value, total, prec)
    ensures places >= prec - 1
    ensures Shown(value, total, prec) == HalfEven(Ratio(Units(value), places, Units(total)), Pow(places - 4))
    ensures Cents(Share(value, total, prec)) == Dec(false, Shown(value, total, prec), -2)
  {
    var coef, k;
    places, coef, k := ShareShape(value, total, prec);
    CentsOf(Share(value, total, prec), k, coef, places);
  }

  lemma {:induction false} CentsOf(p: Dec, k: nat, coef: nat, places: nat)
    requires k <= 1 && !p.neg && p.exp == 2 - places + k && p.coef * Pow(k) == coef && places > 8
    ensures Cents(p) == Dec(false, HalfEven(coef, Pow(places - 4)), -2)
  {
    PowAdd(k, -2 - p.exp);
    CentsRatio(p.coef, Pow(k), coef, Pow(-2 - p.exp), Pow(places - 4));
  }

  lemma {:induction false} CentsRatio(coef: nat, k: nat, all: nat, few: nat, many: nat)
    requires coef * k == all && many == k * few && few > 0 && many > 0
    ensures HalfEven(coef, few) == HalfEven(all, many)
  {
    Swap(coef, k, few);
    HalfEvenRatio(coef, few, all, many);
  }

  /** Twice the distance, scaled by the total, between the displayed and the exact share. */
  function Off(shown: nat, units: nat, total: nat): int {
    2 * (shown * total) - 2 * (10000 * units)
  }

  lemma {:induction false} TwoRoundings(u: nat, t: nat, w: nat)
    requires t > 0 && w > 0
    ensures var h := HalfEven(HalfEven(u * (10000 * w), t), w);
            -((w + 1) * t) <= Off(h, u, t) * w <= (w + 1) * t
  {
    var c := HalfEven(u * (10000 * w), t);
    var h := HalfEven(c, w);
    HalfEvenNear(u * (10000 * w), t);
    HalfEvenNear(c, w);
    NearTwice(u, t, w, c, h);
  }

  lemma {:induction false} NearTwice(u: nat, t: nat, w: nat, c: nat, h: nat)
    requires 2 * (u * (10000 * w)) - t <= 2 * (c * t) <= 2 * (u * (10000 * w)) + t
    requires 2 * c - w <= 2 * (h * w) <= 2 * c + w
    ensures -((w + 1) * t) <= Off(h, u, t) * w <= (w + 1) * t
  {
    MulMono(2 * (h * w), 2 * c + w, t);
    MulMono(2 * c - w, 2 * (h * w), t);
    OffScaled(h, u, t, w);
    assert (2 * c + w) * t == 2 * (c * t) + w * t;
    assert (2 * c - w) * t == 2 * (c * t) - w * t;
    assert (w + 1) * t == w * t + t;
  }

  lemma {:induction false} OffScaled(h: nat, u: nat, t: nat, w: nat)
    ensures Off(h, u, t) * w == 2 * (h * w) * t - 2 * (u * (10000 * w))
  {
    Swap(h, t, w);
    assert 2 * (h * w) * t == 2 * (h * t * w);
    assert u * (10000 * w) == 10000 * u * w;
    assert Off(h, u, t) * w == 2 * (h * t) * w - 2 * (10000 * u) * w;
  }

  /** A displayed share is within half a hundredth of a percent, and a sliver, of the exact one. */
  lemma {:induction false} ShownIsNear(value: Dec, total: Dec, prec: nat)
    requires Part(value, total, prec)
    ensures var off := Off(Shown(value, total, prec), Units(value), Units(total));
            var w := Pow(prec - 5);
            -((w + 1) * Units(total)) <= off * w <= (w + 1) * Units(total)
    ensures Cents(Share(value, total, prec)) == Dec(false, Shown(value, total, prec), -2)
  {
    var places := ShownIsRounded(value, total, prec);
    RatioNear(Units(value), Units(total), places);
    PowGrows(prec - 5, places - 4);
    Coarser(Off(Shown(value, total, prec), Units(value), Units(total)), Units(total), Pow(places - 4), Pow(prec - 5));
  }

  lemma {:induction false} RatioNear(u: nat, t: nat, places: nat)
    requires t > 0 && places > 8
    ensures var h := HalfEven(Ratio(u, places, t), Pow(places - 4));
            -((Pow(places - 4) + 1) * t) <= Off(h, u, t) * Pow(places - 4) <= (Pow(places - 4) + 1) * t
  {
    PowAdd(4, places - 4);
    assert Pow(4) == 10000;
    TwoRoundings(u, t, Pow(places - 4));
  }

  /** The finer the scale, the tighter the bound. */
  lemma {:induction false} Coarser(off: int, t: nat, fine: nat, coarse: nat)
    requires fine >= coarse > 0 && -((fine + 1) * t) <= off * fine <= (fine + 1) * t
    ensures -((coarse + 1) * t) <= off * coarse <= (coarse + 1) * t
  {
    CoarserAbove(off, t, fine, coarse);
    assert -off * fine == -(off * fine) && -off * coarse == -(off * coarse);
    CoarserAbove(-off, t, fine, coarse);
  }

  lemma {:induction false} CoarserAbove(off: int, t: nat, fine: nat, coarse: nat)
    requires fine >= coarse > 0 && off * fine <= (fine + 1) * t
    ensures off * coarse <= (coarse + 1) * t
  {
    assert (fine + 1) * t == t * fine + t && (coarse + 1) * t == t * coarse + t;
    assert (off - t) * fine == off * fine - t * fine;
    assert (off - t) * coarse == off * coarse - t * coarse;
    if off > t {
      MulMono(coarse, fine, off - t);
      assert coarse * (off - t) == (off - t) * coarse && fine * (off - t) == (off - t) * fine;
    } else {
      MulMono(off - t, 0, coarse);
    }
  }

  function SumNat(xs: seq<nat>): nat {
    if xs == [] then 0 else SumNat(xs[..|xs| - 1]) + xs[|xs| - 1]
  }

  ghost predicate AllNear(shown: seq<nat>, units: seq<nat>, total: nat, w: nat)
    requires |shown| == |units|
  {
    forall i :: 0 <= i < |shown| ==> -((w + 1) * total) <= Off(shown[i], units[i], total) * w <= (w + 1) * total
  }

  lemma {:induction false} OffsAdd(shown: seq<nat>, units: seq<nat>, total: nat, w: nat)
    requires |shown| == |units| && AllNear(shown, units, total, w)
    ensures var off := Off(SumNat(shown), SumNat(units), total);
            -(|shown| * ((w + 1) * total)) <= off * w <= |shown| * ((w + 1) * total)
  {
    if shown == [] {
    } else {
      var n := |shown| - 1;
      OffsAdd(shown[..n], units[..n], total, w);
      OffsStep(SumNat(shown[..n]), shown[n], SumNat(units[..n]), units[n], total, w, n, (w + 1) * total);
    }
  }

  lemma {:induction false} OffsStep(a: nat, b: nat, c: nat, d: nat, total: nat, w: nat, n: nat, bound: int)
    requires -(n * bound) <= Off(a, c, total) * w <= n * bound
    requires -bound <= Off(b, d, total) * w <= bound
    ensures -((n + 1) * bound) <= Off(a + b, c + d, total) * w <= (n + 1) * bound
  {
    assert (a + b) * total == a * total + b * total;
    var x, y := Off(a, c, total), Off(b, d, total);
    assert Off(a + b, c + d, total) == x + y;
    assert (x + y) * w == x * w + y * w;
    assert (n + 1) * bound == n * bound + bound;
  }

  /**
   The displayed shares of a whole add up to 100 percent within half a hundredth of a percent
   for each share.
   */
  lemma {:induction false} ShownAddUp(shown: seq<nat>, units: seq<nat>, total: nat, w: nat)
    requires |shown| == |units| < w && AllNear(shown, units, total, w)
    requires SumNat(units) == total > 0
    ensures 2 * (SumNat(shown) - 10000) <= |shown| && 2 * (10000 - SumNat(shown)) <= |shown|
  {
    OffsAdd(shown, units, total, w);
    GapBounds(SumNat(shown), |shown|, total, w);
  }

  lemma {:induction false} GapBounds(sum: nat, n: nat, total: nat, w: nat)
    requires n < w && total > 0
    requires -(n * ((w + 1) * total)) <= Off(sum, total, total) * w <= n * ((w + 1) * total)
    ensures 2 * (sum - 10000) <= n && 2 * (10000 - sum) <= n
  {
    var gap := 2 * (sum - 10000);
    assert Off(sum, total, total) == gap * total;
    Swap(gap, total, w);
    Swap(n, w + 1, total);
    GapBound(gap, n, total, w);
    assert -gap * w * total == -(gap * w * total);
    GapBound(-gap, n, total, w);
  }

  lemma {:induction false} GapBound(gap: int, n: nat, total: nat, w: nat)
    requires n < w && total > 0 && gap * w * total <= n * (w + 1) * total
    ensures gap <= n
  {
    MulMono(n * (w + 1) + 1, gap * w, total);
    assert (n * (w + 1) + 1) * total == n * (w + 1) * total + total;
    assert n * (w + 1) == n * w + n;
    MulMono(n + 1, gap, w);
    assert (n + 1) * w == n * w + w;
  }
}
