/**
 Decimal arithmetic in a context of limited precision, as `web/portfolio/domain.py` uses it:
 every operation rounds its exact result half to even. Amounts with at most six decimals are
 also counted in whole micro-units, where small enough sums and products turn out exact.
 */
module Money {
  import opened Decimals

  /** Powers of ten as numbers. */
  const E8: nat := 100000000
  const E13: nat := 10000000000000
  const E18: nat := 1000000000000000000
  const E27: nat := 1000000000000000000000000000
  const E32: nat := 100000000000000000000000000000000
  const E35: nat := 100000000000000000000000000000000000
  const E40: nat := 10000000000000000000000000000000000000000

  lemma {:induction false} PowersOfTen()
    ensures Pow(8) == E8 && Pow(18) == E18 && Pow(32) == E32 && Pow(35) == E35 && Pow(40) == E40
  {
    assert Pow(4) == 10000;
    PowAdd(4, 4);
    PowAdd(8, 8);
    PowAdd(16, 16);
    assert Pow(2) == 100 && Pow(3) == 1000;
    PowAdd(16, 2);
    PowAdd(32, 3);
    PowAdd(32, 8);
  }

  // ---------------------------------------------------------------- rounding

  function HalfEven(num: nat, den: nat): nat
    requires den > 0
  {
    var q, r := num / den, num % den;
    if 2 * r > den || (2 * r == den && q % 2 == 1) then q + 1 else q
  }

  lemma {:induction false} MulMono(a: int, b: int, d: nat)
    ensures a <= b ==> a * d <= b * d
  {
  }

  lemma {:induction false} NoMultiple(k: int, den: int)
    requires -den < k * den < den
    ensures k == 0
  {
    if k >= 1 {
      MulMono(1, k, den);
    } else if k <= -1 {
      MulMono(k, -1, den);
    }
  }

  lemma {:induction false} DivUnique(n: nat, den: nat, q: int, r: int)
    requires n == q * den + r && 0 <= r < den
    ensures n / den == q && n % den == r
  {
    var x, y := n / den, n % den;
    assert n == x * den + y;
    assert (x - q) * den == x * den - q * den;
    NoMultiple(x - q, den);
  }

  /** The rounded quotient is within half a unit of the exact one. */
  lemma {:induction false} HalfEvenNear(num: nat, den: nat)
    requires den > 0
    ensures 2 * num - den <= 2 * (HalfEven(num, den) * den) <= 2 * num + den
  {
    var q, r := num / den, num % den;
    assert num == q * den + r;
    assert (q + 1) * den == q * den + den;
  }

  lemma {:induction false} HalfEvenExact(q: nat, den: nat)
    requires den > 0
    ensures HalfEven(q * den, den) == q
  {
    DivUnique(q * den, den, q, 0);
  }

  /** Rounding keeps whatever whole number the quotient already reaches. */
  lemma {:induction false} HalfEvenReaches(num: nat, den: nat, whole: nat)
    requires den > 0 && num >= whole * den
    ensures HalfEven(num, den) >= whole
  {
    var q, r := num / den, num % den;
    assert num == q * den + r;
    MulMono(q + 1, whole, den);
    assert (q + 1) * den == q * den + den;
  }

  lemma {:induction false} HalfEvenWithin(num: nat, den: nat, whole: nat)
    requires den > 0 && num <= whole * den
    ensures HalfEven(num, den) <= whole
  {
    var q, r := num / den, num % den;
    assert num == q * den + r;
    MulMono(whole + 1, q, den);
    assert (whole + 1) * den == whole * den + den;
    assert q == whole ==> r == 0;
  }

  /** Rounding to the context's precision. */
  function Fix(d: Dec, prec: nat): Dec {
    var n := |Digits(d.coef)|;
    if n <= prec then d
    else Dec(d.neg, HalfEven(d.coef, Pow(n - prec)), d.exp + (n - prec))
  }

  lemma {:induction false} FixExact(d: Dec, prec: nat)
    requires d.coef < Pow(prec) && prec > 0
    ensures Fix(d, prec) == d
  {
    FewDigits(d.coef, prec);
    DigitsBounds(d.coef);
  }

  // ---------------------------------------------------------------- operations

  function Signed(d: Dec): int {
    var c: int := d.coef;
    if d.neg then -c else c
  }

  /** The number counted in units of `10^exp`. */
  function At(d: Dec, exp: int): int
    requires exp <= d.exp
    decreases d.exp - exp
  {
    if exp == d.exp then Signed(d) else 10 * At(d, exp + 1)
  }

  lemma {:induction false} AtTimes(d: Dec, exp: int)
    requires exp <= d.exp
    ensures At(d, exp) == Signed(d) * Pow(d.exp - exp)
    decreases d.exp - exp
  {
    if exp == d.exp {
    } else {
      AtTimes(d, exp + 1);
      var s, p := Signed(d), Pow(d.exp - (exp + 1));
      assert s * (10 * p) == 10 * (s * p);
    }
  }

  function Min(a: int, b: int): int {
    if a <= b then a else b
  }

  function Exactly(a: Dec, b: Dec): Dec {
    var exp := Min(a.exp, b.exp);
    var sum := At(a, exp) + At(b, exp);
    Dec(if sum == 0 then a.neg && b.neg else sum < 0, Abs(sum), exp)
  }

  function Add(a: Dec, b: Dec, prec: nat): Dec {
    Fix(Exactly(a, b), prec)
  }

  function Minus(d: Dec): Dec {
    d.(neg := !d.neg)
  }

  function Sub(a: Dec, b: Dec, prec: nat): Dec {
    Add(a, Minus(b), prec)
  }

  function Mul(a: Dec, b: Dec, prec: nat): Dec {
    Fix(Dec(a.neg != b.neg, a.coef * b.coef, a.exp + b.exp), prec)
  }

  function Whole(n: nat): Dec {
    Dec(false, n, 0)
  }

  /** The quotient's scale: enough digits that rounding leaves exactly the context's precision. */
  function Shift(a: nat, b: nat, prec: nat): int {
    |Digits(b)| - |Digits(a)| + prec + 1
  }

  function ScaledUp(n: nat, shift: int): (r: nat)
    ensures n > 0 ==> r > 0
  {
    if shift >= 0 then
      Positive(n, Pow(shift));
      n * Pow(shift)
    else n
  }

  lemma {:induction false} Positive(a: nat, b: nat)
    ensures a > 0 && b > 0 ==> a * b > 0
  {
  }

  function Excess(n: nat, prec: nat): nat {
    var len := |Digits(n)|;
    if len <= prec then 0 else len - prec
  }

  function Dropped(num: nat, den: nat, drop: nat): nat
    requires den > 0
  {
    Positive(den, Pow(drop));
    HalfEven(num, den * Pow(drop))
  }

  /** `num / den` half even at `prec` digits, and how many digits that dropped. */
  function Rounded(num: nat, den: nat, prec: nat): (nat, nat)
    requires den > 0
  {
    var drop := Excess(num / den, prec);
    (Dropped(num, den, drop), drop)
  }

  function Quotient(a: nat, b: nat, prec: nat, shift: int): (nat, nat)
    requires b > 0
  {
    Rounded(ScaledUp(a, shift), ScaledUp(b, -shift), prec)
  }

  function Div(a: Dec, b: Dec, prec: nat): Dec
    requires b.coef > 0
  {
    var shift := Shift(a.coef, b.coef, prec);
    var (coef, drop) := Quotient(a.coef, b.coef, prec, shift);
    Dec(a.neg != b.neg, coef, a.exp - b.exp - shift + drop)
  }

  /** `value.quantize(Decimal("0.01"))`. */
  function Cents(d: Dec): Dec {
    if d.exp >= -2 then Dec(d.neg, d.coef * Pow(d.exp + 2), -2)
    else Dec(d.neg, HalfEven(d.coef, Pow(-2 - d.exp)), -2)
  }

  // ---------------------------------------------------------------- micro-units

  predicate Small(d: Dec) {
    -6 <= d.exp <= 0
  }

  /** An amount with at most six decimals, counted in millionths. */
  function Units(d: Dec): int
    requires Small(d)
  {
    At(d, -6)
  }

  lemma {:induction false} SignedTimes(neg: bool, coef: nat, p: nat)
    ensures Signed(Dec(neg, coef, 0)) * p == Signed(Dec(neg, coef * p, 0))
  {
    var c: int := coef;
    assert -c * p == -(c * p);
  }

  lemma {:induction false} MillionthsValue(neg: bool, coef: nat)
    ensures Value(Dec(neg, coef, -6)) * 1000000.0 == Signed(Dec(neg, coef, 0)) as real
  {
    assert Value(Dec(neg, coef, -1)) * 10.0 == Value(Dec(neg, coef, 0));
    assert Value(Dec(neg, coef, -2)) * 10.0 == Value(Dec(neg, coef, -1));
    assert Value(Dec(neg, coef, -3)) * 10.0 == Value(Dec(neg, coef, -2));
    assert Value(Dec(neg, coef, -4)) * 10.0 == Value(Dec(neg, coef, -3));
    assert Value(Dec(neg, coef, -5)) * 10.0 == Value(Dec(neg, coef, -4));
    assert Value(Dec(neg, coef, -6)) * 10.0 == Value(Dec(neg, coef, -5));
  }

  lemma {:induction false} AtScaled(d: Dec, exp: int)
    requires exp <= d.exp
    ensures At(d, exp) == Signed(Dec(d.neg, Scaled(d.coef, d.exp - exp), 0))
    decreases d.exp - exp
  {
    if exp == d.exp {
    } else {
      AtScaled(d, exp + 1);
    }
  }

  lemma {:induction false} UnitsValue(d: Dec)
    requires Small(d)
    ensures Value(d) * 1000000.0 == Units(d) as real
  {
    AtScaled(d, -6);
    ValueShifts(d.neg, d.coef, d.exp, d.exp + 6);
    MillionthsValue(d.neg, Scaled(d.coef, d.exp + 6));
  }

  lemma {:induction false} SameUnits(a: Dec, b: Dec)
    requires Small(a) && Small(b) && Value(a) == Value(b)
    ensures Units(a) == Units(b)
  {
    UnitsValue(a);
    UnitsValue(b);
  }

  lemma {:induction false} Rescale(d: Dec, exp: int)
    requires -6 <= exp <= d.exp
    ensures At(d, -6) == At(d, exp) * Pow(exp + 6)
  {
    AtTimes(d, -6);
    AtTimes(d, exp);
    PowAdd(d.exp - exp, exp + 6);
    var s, p, q := Signed(d), Pow(d.exp - exp), Pow(exp + 6);
    assert s * (p * q) == s * p * q;
  }

  /** Zero is never negative. */
  predicate Clean(d: Dec) {
    d.coef == 0 ==> !d.neg
  }

  lemma {:induction false} AtZero(d: Dec, exp: int)
    requires exp <= d.exp
    ensures At(d, exp) == 0 <==> d.coef == 0
    ensures d.coef <= Abs(At(d, exp))
    ensures At(d, exp) < 0 <==> d.neg && d.coef > 0
    decreases d.exp - exp
  {
    if exp == d.exp {
    } else {
      AtZero(d, exp + 1);
    }
  }

  lemma {:induction false} ExactUnits(a: Dec, b: Dec)
    requires Small(a) && Small(b)
    ensures var s := Exactly(a, b); Small(s) && Units(s) == Units(a) + Units(b)
  {
    var exp := Min(a.exp, b.exp);
    Rescale(a, exp);
    Rescale(b, exp);
    Rescale(Exactly(a, b), exp);
    SumOfProducts(At(a, exp), At(b, exp), Pow(exp + 6));
    ExactAt(a, b, exp);
  }

  lemma {:induction false} SumOfProducts(x: int, y: int, p: int)
    ensures (x + y) * p == x * p + y * p
  {
  }

  lemma {:induction false} ExactAt(a: Dec, b: Dec, exp: int)
    requires exp == Min(a.exp, b.exp)
    ensures Exactly(a, b).exp == exp && At(Exactly(a, b), exp) == At(a, exp) + At(b, exp)
  {
  }

  lemma {:induction false} ExactSum(a: Dec, b: Dec)
    requires Small(a) && Small(b)
    ensures var s := Exactly(a, b); Small(s) && Units(s) == Units(a) + Units(b) && s.coef <= Abs(Units(s))
    ensures Clean(a) && Clean(b) ==> Clean(Exactly(a, b))
  {
    ExactUnits(a, b);
    AtZero(Exactly(a, b), -6);
    AtZero(a, Min(a.exp, b.exp));
    AtZero(b, Min(a.exp, b.exp));
  }

  /** Sums below the precision are exact, and never a negative zero. */
  lemma {:induction false} AddIsExact(a: Dec, b: Dec, prec: nat)
    requires Small(a) && Small(b) && prec > 0 && Abs(Units(a) + Units(b)) < Pow(prec)
    ensures Small(Add(a, b, prec)) && Units(Add(a, b, prec)) == Units(a) + Units(b)
    ensures Clean(a) && Clean(b) ==> Clean(Add(a, b, prec))
  {
    ExactSum(a, b);
    FixExact(Exactly(a, b), prec);
  }

  lemma {:induction false} MinusUnits(d: Dec)
    requires Small(d)
    ensures Units(Minus(d)) == -Units(d)
  {
    AtTimes(d, -6);
    AtTimes(Minus(d), -6);
    var s, p := Signed(d), Pow(d.exp + 6);
    assert (-s) * p == -(s * p);
  }

  lemma {:induction false} SubIsExact(a: Dec, b: Dec, prec: nat)
    requires Small(a) && Small(b) && prec > 0 && Abs(Units(a) - Units(b)) < Pow(prec)
    ensures Small(Sub(a, b, prec)) && Units(Sub(a, b, prec)) == Units(a) - Units(b)
    ensures Clean(a) && b.coef > 0 ==> Clean(Sub(a, b, prec))
  {
    MinusUnits(b);
    AddIsExact(a, Minus(b), prec);
  }

  lemma {:induction false} TimesUnits(neg: bool, coef: nat, exp: int, n: nat)
    requires -6 <= exp <= 0
    ensures Units(Dec(neg, coef * n, exp)) == Units(Dec(neg, coef, exp)) * n
  {
    AtTimes(Dec(neg, coef, exp), -6);
    AtTimes(Dec(neg, coef * n, exp), -6);
    SignedTimes(neg, coef, n);
    var s, p := Signed(Dec(neg, coef, exp)), Pow(exp + 6);
    assert s * n * p == s * p * n;
  }

  /** Multiplying by a whole number is exact while the coefficient stays below the precision. */
  lemma {:induction false} TimesIsExact(a: Dec, n: nat, prec: nat)
    requires Small(a) && prec > 0 && a.coef * n < Pow(prec)
    ensures Small(Mul(a, Whole(n), prec)) && Units(Mul(a, Whole(n), prec)) == Units(a) * n
    ensures Clean(a) && n > 0 ==> Clean(Mul(a, Whole(n), prec))
  {
    TimesUnits(a.neg, a.coef, a.exp, n);
    FixExact(Dec(a.neg, a.coef * n, a.exp), prec);
    Positive(a.coef, n);
  }
}
