/**
 Decimal text: how `web/portfolio/domain.py` prints decimals, reads them back and admits
 them as input. A decimal is a sign, a coefficient and an exponent, as in Python.
 */
module Decimals {
  import opened Wrappers
  import opened Text

  datatype Dec = Dec(neg: bool, coef: nat, exp: int)

  // ---------------------------------------------------------------- powers of ten

  function Pow(n: nat): (r: nat)
    ensures r > 0
  {
    if n == 0 then 1 else 10 * Pow(n - 1)
  }

  lemma {:induction false} PowAdd(a: nat, b: nat)
    ensures Pow(a + b) == Pow(a) * Pow(b)
  {
    if a == 0 {
    } else {
      PowAdd(a - 1, b);
      assert Pow(a + b) == 10 * (Pow(a - 1) * Pow(b)) == (10 * Pow(a - 1)) * Pow(b);
    }
  }

  lemma {:induction false} PowGrows(a: nat, b: nat)
    requires a <= b
    ensures Pow(a) <= Pow(b)
  {
    if a == b {
    } else {
      PowGrows(a, b - 1);
    }
  }

  /** `coef` times the `k`-th power of ten, one factor at a time. */
  function Scaled(coef: nat, k: nat): nat {
    if k == 0 then coef else 10 * Scaled(coef, k - 1)
  }

  lemma {:induction false} ScaledTimes(coef: nat, k: nat)
    ensures Scaled(coef, k) == coef * Pow(k)
  {
    if k == 0 {
    } else {
      ScaledTimes(coef, k - 1);
      TenTimes(coef, k);
    }
  }

  lemma {:induction false} TenTimes(coef: nat, k: nat)
    requires k > 0
    ensures coef * Pow(k) == 10 * (coef * Pow(k - 1))
  {
    var p := Pow(k - 1);
    assert coef * (10 * p) == 10 * (coef * p);
  }

  /** The number a decimal stands for: its coefficient, moved by its exponent. */
  function Value(d: Dec): real
    decreases Abs(d.exp)
  {
    if d.exp > 0 then 10.0 * Value(Dec(d.neg, d.coef, d.exp - 1))
    else if d.exp < 0 then Value(Dec(d.neg, d.coef, d.exp + 1)) / 10.0
    else if d.neg then -(d.coef as real) else d.coef as real
  }

  function Abs(n: int): nat {
    if n < 0 then -n else n
  }

  // ---------------------------------------------------------------- digits

  predicate Digit(c: char) {
    '0' <= c <= '9'
  }

  predicate AllDigits(s: string) {
    forall i :: 0 <= i < |s| ==> Digit(s[i])
  }

  function DigitChar(n: nat): (c: char)
    requires n < 10
    ensures Digit(c)
  {
    '0' + n as char
  }

  function DigitOf(c: char): (n: nat)
    requires Digit(c)
    ensures n < 10
  {
    c as nat - '0' as nat
  }

  /** `str(n)`. */
  function Digits(n: nat): (s: string)
    ensures s != "" && AllDigits(s)
  {
    if n < 10 then [DigitChar(n)] else Digits(n / 10) + [DigitChar(n % 10)]
  }

  function Nat(s: string): nat
    requires AllDigits(s)
  {
    if s == "" then 0 else 10 * Nat(s[..|s| - 1]) + DigitOf(s[|s| - 1])
  }

  function Zeros(n: nat): (s: string)
    ensures |s| == n && AllDigits(s) && forall i :: 0 <= i < n ==> s[i] == '0'
  {
    if n == 0 then "" else Zeros(n - 1) + "0"
  }

  lemma {:induction false} NatSnoc(s: string, c: char)
    requires AllDigits(s) && Digit(c)
    ensures AllDigits(s + [c]) && Nat(s + [c]) == 10 * Nat(s) + DigitOf(c)
  {
    assert (s + [c])[..|s|] == s;
  }

  /** Reading a printed number gives the number. */
  lemma {:induction false} NatOfDigits(n: nat)
    ensures Nat(Digits(n)) == n
  {
    if n < 10 {
      NatSnoc("", DigitChar(n));
      assert "" + [DigitChar(n)] == [DigitChar(n)];
    } else {
      NatOfDigits(n / 10);
      NatSnoc(Digits(n / 10), DigitChar(n % 10));
    }
  }

  lemma {:induction false} NatLeadingZeros(k: nat, s: string)
    requires AllDigits(s)
    ensures AllDigits(Zeros(k) + s) && Nat(Zeros(k) + s) == Nat(s)
    decreases k + |s|
  {
    if s == "" {
      assert Zeros(k) + s == Zeros(k);
      if k > 0 {
        NatLeadingZeros(k - 1, s);
        assert Zeros(k - 1) + "" == Zeros(k - 1);
        NatSnoc(Zeros(k - 1), '0');
      }
    } else {
      var front := s[..|s| - 1];
      NatLeadingZeros(k, front);
      assert Zeros(k) + s == (Zeros(k) + front) + [s[|s| - 1]];
      NatSnoc(Zeros(k) + front, s[|s| - 1]);
    }
  }

  lemma {:induction false} NatTrailingZeros(s: string, k: nat)
    requires AllDigits(s)
    ensures AllDigits(s + Zeros(k)) && Nat(s + Zeros(k)) == Scaled(Nat(s), k)
  {
    if k == 0 {
      assert s + Zeros(0) == s;
    } else {
      NatTrailingZeros(s, k - 1);
      assert s + Zeros(k) == (s + Zeros(k - 1)) + ['0'];
      NatSnoc(s + Zeros(k - 1), '0');
    }
  }

  lemma {:induction false} NatBound(s: string)
    requires AllDigits(s)
    ensures Nat(s) < Pow(|s|)
  {
    if s == "" {
    } else {
      NatBound(s[..|s| - 1]);
    }
  }

  lemma {:induction false} DigitsBounds(n: nat)
    ensures n < Pow(|Digits(n)|)
    ensures n > 0 ==> Pow(|Digits(n)| - 1) <= n && Digits(n)[0] != '0'
    ensures n == 0 ==> Digits(n) == "0"
  {
    if n >= 10 {
      DigitsBounds(n / 10);
      assert |Digits(n)| == |Digits(n / 10)| + 1;
      assert Digits(n)[0] == Digits(n / 10)[0];
    }
  }

  // ---------------------------------------------------------------- printing

  /** Digits with a point after the first `place` of them, padded with zeros where there are none. */
  function Pointed(digits: string, place: int): string {
    if place < 0 then "0." + Zeros(-place) + digits
    else if place >= |digits| then digits + Zeros(place - |digits|)
    else (if place == 0 then "0" else digits[..place]) + "." + digits[place..]
  }

  /** `format(value, "f")` of a non-negative decimal: where the point falls decides the shape. */
  function Fixed(coef: nat, exp: int): string {
    Pointed(Digits(coef), (if coef == 0 && exp > 0 then 0 else exp) + |Digits(coef)|)
  }

  function RStripChar(s: string, c: char): string {
    if s != "" && s[|s| - 1] == c then RStripChar(s[..|s| - 1], c) else s
  }

  function Sign(neg: bool): string {
    if neg then "-" else ""
  }

  function Trimmed(text: string): string {
    if '.' in text then RStripChar(RStripChar(text, '0'), '.') else text
  }

  /** `decimal_text`. */
  function Show(d: Dec): string {
    Trimmed(Sign(d.neg) + Fixed(d.coef, d.exp))
  }

  /** The digits around the point. */
  lemma {:induction false} PointedShape(digits: string, place: int) returns (whole: string, frac: string)
    requires digits != "" && AllDigits(digits) && place < |digits|
    ensures Pointed(digits, place) == whole + "." + frac
    ensures AllDigits(whole) && AllDigits(frac) && AllDigits(whole + frac) && |frac| == |digits| - place
    ensures Nat(whole + frac) == Nat(digits)
    ensures if place <= 0 then whole == "0" else whole == digits[..place]
  {
    if place <= 0 {
      var k: nat := -place;
      whole, frac := "0", Zeros(k) + digits;
      NatLeadingZeros(k + 1, digits);
      LeadingZero(k, digits);
      SmallPointed(digits, place);
    } else {
      whole, frac := digits[..place], digits[place..];
      assert whole + frac == digits;
    }
  }

  lemma {:induction false} SmallPointed(digits: string, place: int)
    requires digits != "" && place <= 0
    ensures Pointed(digits, place) == "0" + "." + (Zeros(-place) + digits)
  {
    if place == 0 {
      assert Zeros(0) + digits == digits == digits[0..];
    }
  }

  lemma {:induction false} FixedShape(coef: nat, exp: int) returns (whole: string, frac: string)
    requires exp < 0
    ensures Fixed(coef, exp) == whole + "." + frac
    ensures AllDigits(whole) && AllDigits(frac) && AllDigits(whole + frac) && |frac| == -exp
    ensures Nat(whole + frac) == coef
    ensures whole == "0" || (whole != "" && whole[0] != '0' && |whole| == |Digits(coef)| + exp)
  {
    NatOfDigits(coef);
    DigitsBounds(coef);
    whole, frac := PointedShape(Digits(coef), exp + |Digits(coef)|);
  }

  lemma {:induction false} LeadingZero(k: nat, s: string)
    ensures "0" + (Zeros(k) + s) == Zeros(k + 1) + s
  {
    assert "0" + Zeros(k) == Zeros(k + 1);
  }

  lemma {:induction false} ScaledZero(k: nat)
    ensures Scaled(0, k) == 0
  {
    if k == 0 {
    } else {
      ScaledZero(k - 1);
    }
  }

  lemma {:induction false} WholeShape(coef: nat, exp: int)
    requires exp >= 0
    ensures Fixed(coef, exp) == Digits(coef) + Zeros(if coef == 0 then 0 else exp)
    ensures AllDigits(Fixed(coef, exp)) && Nat(Fixed(coef, exp)) == Scaled(coef, exp)
  {
    DigitsBounds(coef);
    NatOfDigits(coef);
    NatTrailingZeros(Digits(coef), if coef == 0 then 0 else exp);
    ScaledZero(exp);
  }

  lemma {:induction false} RStripZeros(pre: string, frac: string) returns (kept: string, k: nat)
    requires pre != "" && pre[|pre| - 1] != '0' && AllDigits(frac)
    ensures frac == kept + Zeros(k) && AllDigits(kept) && (kept != "" ==> kept[|kept| - 1] != '0')
    ensures RStripChar(pre + frac, '0') == pre + kept
    decreases |frac|
  {
    if frac != "" && frac[|frac| - 1] == '0' {
      var front := frac[..|frac| - 1];
      assert (pre + frac)[..|pre + frac| - 1] == pre + front;
      kept, k := RStripZeros(pre, front);
      k := k + 1;
      assert frac == front + "0";
    } else {
      kept, k := frac, 0;
      assert frac + Zeros(0) == frac;
    }
  }

  lemma {:induction false} NoPoint(s: string)
    requires AllDigits(s)
    ensures '.' !in s && '-' !in s && '.' !in "-" + s
  {
  }

  /** What trimming leaves of the fraction: no trailing zeros, and no point without a fraction. */
  lemma {:induction false} TrimShape(head: string, frac: string) returns (kept: string, k: nat)
    requires head != "" && Digit(head[|head| - 1]) && AllDigits(frac)
    ensures frac == kept + Zeros(k) && AllDigits(kept) && (kept != "" ==> kept[|kept| - 1] != '0')
    ensures Trimmed(head + "." + frac) == head + (if kept == "" then "" else "." + kept)
  {
    var pre := head + ".";
    assert (pre + frac)[|head|] == '.';
    kept, k := RStripZeros(pre, frac);
    if kept == "" {
      assert pre + kept == pre && pre[..|pre| - 1] == head;
      assert RStripChar(head, '.') == head;
      assert RStripChar(pre, '.') == RStripChar(head, '.');
      assert head + "" == head;
    } else {
      assert (pre + kept)[|pre + kept| - 1] == kept[|kept| - 1];
      assert pre + kept == head + ("." + kept);
    }
  }

  lemma {:induction false} SignFirst(sign: string, whole: string, frac: string)
    requires whole != ""
    ensures sign + (whole + "." + frac) == (sign + whole) + "." + frac
    ensures (sign + whole)[|sign + whole| - 1] == whole[|whole| - 1]
  {
  }

  lemma {:induction false} ShowShape(d: Dec, whole: string, frac: string) returns (kept: string, k: nat)
    requires d.exp < 0 && Fixed(d.coef, d.exp) == whole + "." + frac
    requires AllDigits(whole) && whole != "" && AllDigits(frac)
    ensures frac == kept + Zeros(k) && AllDigits(kept) && (kept != "" ==> kept[|kept| - 1] != '0')
    ensures Show(d) == Sign(d.neg) + whole + (if kept == "" then "" else "." + kept)
  {
    SignFirst(Sign(d.neg), whole, frac);
    kept, k := TrimShape(Sign(d.neg) + whole, frac);
  }

  lemma {:induction false} ShowWhole(d: Dec)
    requires d.exp >= 0
    ensures Show(d) == Sign(d.neg) + Fixed(d.coef, d.exp)
  {
    WholeShape(d.coef, d.exp);
    NoPoint(Fixed(d.coef, d.exp));
  }

  // ---------------------------------------------------------------- reading

  function Unsigned(s: string): string {
    if s != "" && s[0] == '-' then s[1..] else s
  }

  /** Plain decimal notation: digits, optionally a point and more digits, optionally a minus. */
  predicate Numeric(s: string) {
    var body := Unsigned(s);
    if '.' in body then AllDigits(Before(body, '.')) && AllDigits(After(body, '.')) && AllDigits(Before(body, '.') + After(body, '.'))
    else AllDigits(body)
  }

  /** `Decimal(s)` of plain notation. */
  function Parse(s: string): Dec
    requires Numeric(s)
  {
    var body := Unsigned(s);
    var neg := s != "" && s[0] == '-';
    if '.' in body then Dec(neg, Nat(Before(body, '.') + After(body, '.')), -|After(body, '.')|)
    else Dec(neg, Nat(body), 0)
  }

  lemma {:induction false} ParseParts(neg: bool, whole: string, frac: string)
    requires AllDigits(whole) && whole != "" && AllDigits(frac)
    ensures Numeric(Sign(neg) + whole) && Parse(Sign(neg) + whole) == Dec(neg, Nat(whole), 0)
    ensures AllDigits(whole + frac)
    ensures Numeric(Sign(neg) + whole + ("." + frac))
    ensures Parse(Sign(neg) + whole + ("." + frac)) == Dec(neg, Nat(whole + frac), -|frac|)
  {
    NoPoint(whole);
    var s := Sign(neg) + whole;
    assert Unsigned(s) == whole;
    var t := Sign(neg) + whole + ("." + frac);
    assert Unsigned(t) == whole + ['.'] + frac;
    assert Unsigned(t)[|whole|] == '.';
    CutAt(whole, '.', frac);
  }

  // ---------------------------------------------------------------- equal numbers print alike

  lemma {:induction false} ValueShift(neg: bool, coef: nat, exp: int)
    ensures Value(Dec(neg, 10 * coef, exp - 1)) == Value(Dec(neg, coef, exp))
    decreases Abs(exp)
  {
    if exp > 1 {
      ValueShift(neg, coef, exp - 1);
    } else if exp < 0 {
      ValueShift(neg, coef, exp + 1);
    }
  }

  lemma {:induction false} ValueShifts(neg: bool, coef: nat, exp: int, k: nat)
    ensures Value(Dec(neg, Scaled(coef, k), exp - k)) == Value(Dec(neg, coef, exp))
  {
    if k == 0 {
    } else {
      ValueShifts(neg, coef, exp, k - 1);
      ValueShift(neg, Scaled(coef, k - 1), exp - (k - 1));
    }
  }

  lemma {:induction false} LastKept(kept: string, k: nat)
    ensures kept != "" ==> (kept + Zeros(k))[|kept| - 1] == kept[|kept| - 1]
  {
  }

  lemma {:induction false} ShowZero(neg: bool, exp: int)
    ensures Show(Dec(neg, 0, exp)) == Sign(neg) + "0"
  {
    var d := Dec(neg, 0, exp);
    if exp >= 0 {
      WholeShape(0, exp);
      ShowWhole(d);
      DigitsBounds(0);
      assert "0" + Zeros(0) == "0";
    } else {
      DigitsBounds(0);
      var whole, frac := FixedShape(0, exp);
      var kept, k := ShowShape(d, whole, frac);
      NatZero(whole + frac);
      ZeroPieces(whole, frac);
      LastKept(kept, k);
    }
  }

  predicate AllZero(s: string) {
    forall i :: 0 <= i < |s| ==> s[i] == '0'
  }

  lemma {:induction false} NatZero(s: string)
    requires AllDigits(s) && Nat(s) == 0
    ensures AllZero(s)
  {
    if s == "" {
    } else {
      NatZero(s[..|s| - 1]);
      assert s == s[..|s| - 1] + [s[|s| - 1]];
    }
  }

  lemma {:induction false} ZeroPieces(whole: string, frac: string)
    requires AllZero(whole + frac)
    ensures AllZero(whole) && AllZero(frac)
  {
    assert forall i :: 0 <= i < |whole| ==> whole[i] == (whole + frac)[i];
    assert forall i :: 0 <= i < |frac| ==> frac[i] == (whole + frac)[|whole| + i];
  }

  lemma {:induction false} DigitsTimesTen(coef: nat)
    requires coef > 0
    ensures Digits(10 * coef) == Digits(coef) + "0"
  {
    assert 10 * coef / 10 == coef && 10 * coef % 10 == 0;
    assert [DigitChar(0)] == "0";
  }

  lemma {:induction false} RStripOneMore(s: string, c: char)
    ensures RStripChar(s + [c], c) == RStripChar(s, c)
  {
    assert (s + [c])[..|s|] == s;
  }

  lemma {:induction false} ShowWholeShift(neg: bool, a: nat, b: nat, exp: int)
    requires a > 0 && b > 0 && Digits(b) == Digits(a) + "0" && exp > 0
    ensures Show(Dec(neg, b, exp - 1)) == Show(Dec(neg, a, exp))
  {
    WholeShape(a, exp);
    WholeShape(b, exp - 1);
    ShowWhole(Dec(neg, a, exp));
    ShowWhole(Dec(neg, b, exp - 1));
    assert Zeros(exp) == "0" + Zeros(exp - 1);
    assert Digits(a) + "0" + Zeros(exp - 1) == Digits(a) + Zeros(exp);
  }

  /** A trailing zero of the coefficient changes nothing. */
  lemma {:induction false} ShowShift(neg: bool, coef: nat, exp: int)
    ensures Show(Dec(neg, 10 * coef, exp - 1)) == Show(Dec(neg, coef, exp))
  {
    if coef == 0 {
      ShowZero(neg, exp);
      ShowZero(neg, exp - 1);
    } else {
      DigitsTimesTen(coef);
      if exp > 0 {
        ShowWholeShift(neg, coef, 10 * coef, exp);
      } else if exp == 0 {
        ShowTenths(neg, 10 * coef, Digits(coef));
        ShowUnits(neg, coef);
      } else {
        ShowLaterPlace(neg, coef, 10 * coef, exp);
      }
    }
  }

  lemma {:induction false} FirstPlace(head: string)
    requires head != "" && Digit(head[|head| - 1])
    ensures Trimmed(head + "." + "0") == head
  {
    var kept, k := TrimShape(head, "0");
    LastKept(kept, k);
    assert head + "" == head;
  }

  lemma {:induction false} PointedFirst(digits: string)
    requires digits != ""
    ensures Pointed(digits + "0", |digits|) == digits + "." + "0"
  {
    assert (digits + "0")[..|digits|] == digits && (digits + "0")[|digits|..] == "0";
  }

  lemma {:induction false} FixedTenths(b: nat, digits: string)
    requires b > 0 && digits != "" && Digits(b) == digits + "0"
    ensures Fixed(b, -1) == digits + "." + "0"
  {
    PointedFirst(digits);
    assert |Digits(b)| == |digits| + 1;
  }

  lemma {:induction false} TrimTenths(sign: string, digits: string)
    requires digits != "" && AllDigits(digits)
    ensures Trimmed(sign + (digits + "." + "0")) == sign + digits
  {
    var head := sign + digits;
    assert head[|head| - 1] == digits[|digits| - 1];
    FirstPlace(head);
    assert sign + (digits + "." + "0") == head + "." + "0";
  }

  lemma {:induction false} ShowTenths(neg: bool, b: nat, digits: string)
    requires b > 0 && digits != "" && AllDigits(digits) && Digits(b) == digits + "0"
    ensures Show(Dec(neg, b, -1)) == Sign(neg) + digits
  {
    FixedTenths(b, digits);
    TrimTenths(Sign(neg), digits);
  }

  lemma {:induction false} ShowUnits(neg: bool, a: nat)
    requires a > 0
    ensures Show(Dec(neg, a, 0)) == Sign(neg) + Digits(a)
  {
    ShowWhole(Dec(neg, a, 0));
    WholeShape(a, 0);
    assert Digits(a) + Zeros(0) == Digits(a);
  }

  lemma {:induction false} TrimmedOneMore(text: string)
    requires '.' in text
    ensures Trimmed(text + "0") == Trimmed(text)
  {
    RStripOneMore(text, '0');
  }

  lemma {:induction false} HasPoint(sign: string, digits: string, place: int)
    requires digits != "" && place < |digits| && AllDigits(digits)
    ensures '.' in sign + Pointed(digits, place)
  {
    var whole, frac := PointedShape(digits, place);
    assert (sign + (whole + "." + frac))[|sign| + |whole|] == '.';
  }

  lemma {:induction false} TrimmedLonger(sign: string, a: string, b: string)
    requires b == a + "0" && '.' in sign + a
    ensures Trimmed(sign + b) == Trimmed(sign + a)
  {
    TrimmedOneMore(sign + a);
    assert sign + b == sign + a + "0";
  }

  lemma {:induction false} LaterPlace(sign: string, digits: string, place: int)
    requires digits != "" && place < |digits| && AllDigits(digits)
    ensures Trimmed(sign + Pointed(digits + "0", place)) == Trimmed(sign + Pointed(digits, place))
  {
    PointedLonger(digits, place);
    HasPoint(sign, digits, place);
    TrimmedLonger(sign, Pointed(digits, place), Pointed(digits + "0", place));
  }

  lemma {:induction false} ShowLaterPlace(neg: bool, a: nat, b: nat, exp: int)
    requires a > 0 && b > 0 && Digits(b) == Digits(a) + "0" && exp < 0
    ensures Show(Dec(neg, b, exp - 1)) == Show(Dec(neg, a, exp))
  {
    LaterPlace(Sign(neg), Digits(a), exp + |Digits(a)|);
  }

  lemma {:induction false} PointedLonger(digits: string, place: int)
    requires place < |digits|
    ensures Pointed(digits + "0", place) == Pointed(digits, place) + "0"
  {
    if place >= 0 {
      assert (digits + "0")[..place] == digits[..place] && (digits + "0")[place..] == digits[place..] + "0";
    }
  }

  lemma {:induction false} ShowTenfold(neg: bool, a: nat, e: int, b: nat, f: int)
    requires b == 10 * a && f == e - 1
    ensures Show(Dec(neg, b, f)) == Show(Dec(neg, a, e))
  {
    ShowShift(neg, a, e);
  }

  lemma {:induction false} ShowShifts(neg: bool, coef: nat, exp: int, k: nat)
    ensures Show(Dec(neg, Scaled(coef, k), exp - k)) == Show(Dec(neg, coef, exp))
  {
    if k == 0 {
    } else {
      ShowShifts(neg, coef, exp, k - 1);
      ShowTenfold(neg, Scaled(coef, k - 1), exp - (k - 1), Scaled(coef, k), exp - k);
    }
  }

  lemma {:induction false} ValueSign(d: Dec)
    ensures Value(d) == 0.0 <==> d.coef == 0
    ensures Value(d) < 0.0 <==> d.neg && d.coef > 0
    decreases Abs(d.exp)
  {
    if d.exp > 0 {
      ValueSign(Dec(d.neg, d.coef, d.exp - 1));
    } else if d.exp < 0 {
      ValueSign(Dec(d.neg, d.coef, d.exp + 1));
    }
  }

  /** On one scale, values of equal sign are ordered as their coefficients. */
  lemma {:induction false} ValueOrder(neg: bool, a: nat, b: nat, exp: int)
    ensures !neg ==> (Value(Dec(neg, a, exp)) >= Value(Dec(neg, b, exp)) <==> a >= b)
    ensures neg ==> (Value(Dec(neg, a, exp)) <= Value(Dec(neg, b, exp)) <==> a >= b)
    decreases Abs(exp)
  {
    if exp > 0 {
      ValueOrder(neg, a, b, exp - 1);
    } else if exp < 0 {
      ValueOrder(neg, a, b, exp + 1);
    }
  }

  lemma {:induction false} SameScale(neg: bool, a: nat, e: int, b: nat, f: int)
    requires Value(Dec(neg, a, e)) == Value(Dec(neg, b, f)) && e >= f
    ensures b == Scaled(a, e - f)
  {
    ValueShifts(neg, a, e, e - f);
    ValueOrder(neg, Scaled(a, e - f), b, f);
    ValueOrder(neg, b, Scaled(a, e - f), f);
  }

  lemma {:induction false} EqualShowsAlike(neg: bool, a: nat, e: int, b: nat, f: int)
    requires Value(Dec(neg, a, e)) == Value(Dec(neg, b, f)) && e >= f
    ensures Show(Dec(neg, a, e)) == Show(Dec(neg, b, f))
  {
    SameScale(neg, a, e, b, f);
    ShowShifts(neg, a, e, e - f);
    assert e - (e - f) == f;
  }

  lemma {:induction false} ParseWhole(neg: bool, whole: string)
    requires AllDigits(whole) && whole != ""
    ensures Numeric(Sign(neg) + whole) && Parse(Sign(neg) + whole) == Dec(neg, Nat(whole), 0)
  {
    NoPoint(whole);
    assert Unsigned(Sign(neg) + whole) == whole;
  }

  lemma {:induction false} ShowParsesWhole(d: Dec)
    requires d.exp >= 0
    ensures Numeric(Show(d)) && Parse(Show(d)) == Dec(d.neg, Scaled(d.coef, d.exp), 0)
  {
    ShowWhole(d);
    WholeShape(d.coef, d.exp);
    ParseWhole(d.neg, Fixed(d.coef, d.exp));
  }

  lemma {:induction false} ParseKept(neg: bool, whole: string, kept: string)
    requires AllDigits(whole) && whole != "" && AllDigits(kept)
    ensures AllDigits(whole + kept)
    ensures var text := Sign(neg) + whole + (if kept == "" then "" else "." + kept);
            Numeric(text) && Parse(text) == Dec(neg, Nat(whole + kept), -|kept|)
  {
    ParseParts(neg, whole, kept);
    if kept == "" {
      assert whole + kept == whole;
      assert Sign(neg) + whole + "" == Sign(neg) + whole;
    }
  }

  lemma {:induction false} KeptNumber(whole: string, frac: string, kept: string, k: nat)
    requires AllDigits(whole) && AllDigits(kept) && frac == kept + Zeros(k)
    ensures AllDigits(whole + frac) && AllDigits(whole + kept) && Nat(whole + frac) == Scaled(Nat(whole + kept), k)
  {
    assert whole + kept + Zeros(k) == whole + frac;
    NatTrailingZeros(whole + kept, k);
  }

  lemma {:induction false} ShowParsesFraction(d: Dec) returns (coef: nat, k: nat)
    requires d.exp < 0
    ensures k <= -d.exp && d.coef == Scaled(coef, k)
    ensures Numeric(Show(d)) && Parse(Show(d)) == Dec(d.neg, coef, d.exp + k)
  {
    var whole, frac := FixedShape(d.coef, d.exp);
    var kept, z := ShowShape(d, whole, frac);
    k := z;
    ParseKept(d.neg, whole, kept);
    KeptNumber(whole, frac, kept, k);
    coef := Nat(whole + kept);
  }

  lemma {:induction false} ShowReadsWhole(d: Dec)
    requires d.exp >= 0
    ensures Numeric(Show(d)) && Parse(Show(d)).exp == 0 && Parse(Show(d)).neg == d.neg
    ensures Value(Parse(Show(d))) == Value(d)
  {
    ShowParsesWhole(d);
    ValueShifts(d.neg, d.coef, d.exp, d.exp);
  }

  lemma {:induction false} ShowReadsFraction(d: Dec)
    requires d.exp < 0
    ensures Numeric(Show(d)) && d.exp <= Parse(Show(d)).exp <= 0 && Parse(Show(d)).neg == d.neg
    ensures Value(Parse(Show(d))) == Value(d)
  {
    var coef, k := ShowParsesFraction(d);
    ValueShifts(d.neg, coef, d.exp + k, k);
  }

  /** Round trip: reading printed text gives the same number with the same sign. */
  lemma {:induction false} ShowParses(d: Dec)
    ensures Numeric(Show(d))
    ensures Value(Parse(Show(d))) == Value(d) && Parse(Show(d)).neg == d.neg
    ensures d.exp <= Parse(Show(d)).exp <= 0 || Parse(Show(d)).exp == 0
  {
    if d.exp >= 0 {
      ShowReadsWhole(d);
    } else {
      ShowReadsFraction(d);
    }
  }

  /**
   Printed text is canonical: two decimals print alike exactly when they are equal numbers
   that are not a zero and a negative zero.
   */
  lemma {:induction false} ShowIsCanonical(a: Dec, b: Dec)
    ensures Show(a) == Show(b) <==> Value(a) == Value(b) && (a.coef == 0 ==> a.neg == b.neg)
  {
    ValueSign(a);
    ValueSign(b);
    if Show(a) == Show(b) {
      ShowParses(a);
      ShowParses(b);
    }
    if Value(a) == Value(b) && (a.coef == 0 ==> a.neg == b.neg) {
      assert a.neg == b.neg;
      if a.exp >= b.exp {
        EqualShowsAlike(a.neg, a.coef, a.exp, b.coef, b.exp);
      } else {
        EqualShowsAlike(a.neg, b.coef, b.exp, a.coef, a.exp);
      }
      assert a == Dec(a.neg, a.coef, a.exp) && b == Dec(a.neg, b.coef, b.exp);
    }
  }

  /** The one exception: zero has two texts. */
  lemma {:induction false} ZeroHasTwoTexts()
    ensures Value(Dec(true, 0, 0)) == Value(Dec(false, 0, 0))
    ensures Show(Dec(true, 0, 0)) == "-0" && Show(Dec(false, 0, 0)) == "0"
  {
    ShowZero(true, 0);
    ShowZero(false, 0);
  }

  // ---------------------------------------------------------------- admitted input

  predicate WholeInput(s: string) {
    s == "0" || (1 <= |s| <= 12 && AllDigits(s) && s[0] != '0')
  }

  /** `(?:0|[1-9][0-9]{0,11})(?:\.[0-9]{1,6})?` */
  predicate Admitted(s: string) {
    if '.' in s then
      WholeInput(Before(s, '.')) && AllDigits(After(s, '.')) && 1 <= |After(s, '.')| <= 6
    else WholeInput(s)
  }

  lemma {:induction false} WholeDigits(s: string)
    requires WholeInput(s)
    ensures AllDigits(s) && s != "" && '.' !in s
  {
  }

  /** An admitted text is its whole part and, after a point, its fraction. */
  lemma {:induction false} AdmittedText(s: string) returns (whole: string, frac: string)
    requires Admitted(s)
    ensures WholeInput(whole) && AllDigits(frac) && |frac| <= 6
    ensures s == whole + (if frac == "" then "" else "." + frac)
  {
    if '.' in s {
      CutExists(s, '.');
      whole, frac := Before(s, '.'), After(s, '.');
      assert s == whole + ("." + frac);
    } else {
      whole, frac := s, "";
      assert s == whole + "";
    }
  }

  lemma {:induction false} UnsignedParses(whole: string, frac: string)
    requires AllDigits(whole) && whole != "" && AllDigits(frac)
    ensures AllDigits(whole + frac)
    ensures var text := whole + (if frac == "" then "" else "." + frac);
            Numeric(text) && Parse(text) == Dec(false, Nat(whole + frac), -|frac|)
  {
    ParseKept(false, whole, frac);
    assert Sign(false) + whole == whole;
  }

  lemma {:induction false} ReadsAdmitted(s: string, whole: string, frac: string)
    requires WholeInput(whole) && AllDigits(frac) && s == whole + (if frac == "" then "" else "." + frac)
    ensures AllDigits(whole + frac) && Numeric(s) && Parse(s) == Dec(false, Nat(whole + frac), -|frac|)
    ensures Nat(whole + frac) < Pow(|whole| + |frac|)
  {
    WholeDigits(whole);
    UnsignedParses(whole, frac);
    NatBound(whole + frac);
  }

  lemma {:induction false} AdmittedIsNumeric(s: string)
    requires Admitted(s)
    ensures Numeric(s) && !Parse(s).neg && -6 <= Parse(s).exp <= 0 && Parse(s).coef < Pow(18)
  {
    var whole, frac := AdmittedText(s);
    ReadsAdmitted(s, whole, frac);
    PowGrows(|whole| + |frac|, 18);
  }

  /** `positive_decimal` on text: the canonical text of an admitted positive decimal. */
  function PositiveDecimal(s: string): Option<string> {
    if !Admitted(s) then None
    else
      AdmittedIsNumeric(s);
      if Parse(s).coef == 0 then None else Some(Show(Parse(s)))
  }

  lemma {:induction false} PowLess(a: nat, b: nat)
    ensures Pow(a) < Pow(b) ==> a < b
  {
    if a >= b {
      PowGrows(b, a);
    }
  }

  lemma {:induction false} FewDigits(coef: nat, n: nat)
    requires coef < Pow(n)
    ensures |Digits(coef)| <= n || coef == 0
  {
    DigitsBounds(coef);
    PowLess(|Digits(coef)| - 1, n);
  }

  lemma {:induction false} AdmitParts(whole: string, kept: string)
    requires WholeInput(whole) && AllDigits(whole) && AllDigits(kept) && |kept| <= 6
    ensures Admitted(whole + (if kept == "" then "" else "." + kept))
  {
    NoPoint(whole);
    if kept == "" {
      assert whole + "" == whole;
    } else {
      var t := whole + ['.'] + kept;
      assert whole + ("." + kept) == t && t[|whole|] == '.';
      CutAt(whole, '.', kept);
    }
  }

  lemma {:induction false} ShownIsAdmitted(d: Dec, n: nat)
    requires !d.neg && -6 <= d.exp <= 0 && n <= 12 && n >= 1 && d.coef < Pow(n - d.exp)
    ensures Admitted(Show(d))
  {
    FewDigits(d.coef, n - d.exp);
    DigitsBounds(d.coef);
    if d.exp == 0 {
      ShowWhole(d);
      WholeShape(d.coef, 0);
      assert Show(d) == Digits(d.coef);
      AdmitParts(Digits(d.coef), "");
      assert Digits(d.coef) + "" == Digits(d.coef);
    } else {
      var w, f := FixedShape(d.coef, d.exp);
      var kept, k := ShowShape(d, w, f);
      AdmitParts(w, kept);
      assert Sign(false) + w == w;
    }
  }

  lemma {:induction false} ShowIsFixed(d: Dec, n: nat)
    requires !d.neg && d.coef > 0 && -6 <= d.exp <= 0 && n <= 12 && n >= 1 && d.coef < Pow(n - d.exp)
    ensures Admitted(Show(d)) && Numeric(Show(d)) && Parse(Show(d)).coef > 0
    ensures Value(Parse(Show(d))) == Value(d) > 0.0 && Show(Parse(Show(d))) == Show(d)
  {
    ShownIsAdmitted(d, n);
    ShowParses(d);
    ValueSign(d);
    ValueSign(Parse(Show(d)));
    ShowIsCanonical(Parse(Show(d)), d);
  }

  lemma {:induction false} FixedIsPositive(t: string)
    requires Admitted(t) && Numeric(t) && Parse(t).coef > 0 && Show(Parse(t)) == t
    ensures PositiveDecimal(t) == Some(t)
  {
  }

  lemma {:induction false} PositiveShown(s: string)
    requires Admitted(s) && Numeric(s) && Parse(s).coef > 0
    ensures var t := Show(Parse(s));
            && Admitted(t) && Numeric(t) && Parse(t).coef > 0 && Show(Parse(t)) == t
            && Value(Parse(t)) == Value(Parse(s)) > 0.0
  {
    var whole, frac := AdmittedText(s);
    ReadsAdmitted(s, whole, frac);
    ShowIsFixed(Parse(s), |whole|);
  }

  /**
   Validation is a projection: what it returns is admitted again, unchanged, and stands for
   the same positive number; equal numbers are returned as equal texts.
   */
  lemma {:induction false} PositiveDecimalProjects(s: string)
    requires PositiveDecimal(s).Some?
    ensures var t := PositiveDecimal(s).value;
            && Admitted(s) && Admitted(t) && Numeric(s) && Numeric(t)
            && PositiveDecimal(t) == Some(t)
            && Value(Parse(t)) == Value(Parse(s)) > 0.0
  {
    PositiveParts(s);
    PositiveShown(s);
    FixedIsPositive(Show(Parse(s)));
  }

  lemma {:induction false} PositiveParts(s: string)
    requires PositiveDecimal(s).Some?
    ensures Admitted(s) && Numeric(s) && Parse(s).coef > 0 && PositiveDecimal(s).value == Show(Parse(s))
  {
    AdmittedIsNumeric(s);
  }

  lemma {:induction false} PositiveDecimalIsCanonical(s: string, t: string)
    requires PositiveDecimal(s).Some? && PositiveDecimal(t).Some?
    ensures Numeric(s) && Numeric(t)
    ensures PositiveDecimal(s) == PositiveDecimal(t) <==> Value(Parse(s)) == Value(Parse(t))
  {
    AdmittedIsNumeric(s);
    AdmittedIsNumeric(t);
    ShowIsCanonical(Parse(s), Parse(t));
  }
}
