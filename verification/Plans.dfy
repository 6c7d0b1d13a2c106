/**
 Portfolio plans: validation of their fields (`validate_plan` of `web/portfolio/domain.py`).
 A dictionary of plan fields is a record with an optional value per known key, and the set of
 its other keys.
 */
module Plans {
  import opened Wrappers
  import opened Text
  import opened Decimals

  datatype Json = Null | Bool(b: bool) | Int(n: int) | Str(s: string)

  datatype Fields = Fields(symbol: Option<Json>, horizon: Option<Json>, shares: Option<Json>, cost: Option<Json>,
                           reason: Option<Json>, lower: Option<Json>, upper: Option<Json>, review: Option<Json>,
                           pending: Option<Json>, others: set<string>)

  /** A value, or the code and field of a `DomainError`. */
  datatype Checked<+T> = Fine(value: T) | Fault(code: string, field: string)

  function Either(patch: Option<Json>, base: Option<Json>): Option<Json> {
    if patch.Some? then patch else base
  }

  /** `{**base, **patch}`. */
  function Over(base: Fields, patch: Fields): Fields {
    Fields(Either(patch.symbol, base.symbol), Either(patch.horizon, base.horizon), Either(patch.shares, base.shares),
           Either(patch.cost, base.cost), Either(patch.reason, base.reason), Either(patch.lower, base.lower),
           Either(patch.upper, base.upper), Either(patch.review, base.review), Either(patch.pending, base.pending),
           base.others + patch.others)
  }

  const NOTHING := Fields(None, None, None, None, None, None, None, None, None, {})

  const DEFAULTS := Fields(None, None, None, None, Some(Str("")), Some(Null), Some(Null), Some(Null), Some(Bool(false)), {})

  /** `value.get(key)`. */
  function Get(f: Option<Json>): Json {
    if f.Some? then f.value else Null
  }

  // ---------------------------------------------------------------- single fields

  function Amount(j: Json): Option<string> {
    if j.Str? then PositiveDecimal(j.s) else None
  }

  predicate SymbolText(s: string) {
    |s| == 9 && AllDigits(s[..6]) && (s[6..] == ".SS" || s[6..] == ".SZ" || s[6..] == ".BJ")
  }

  predicate HorizonText(s: string) {
    s == "short" || s == "medium" || s == "long"
  }

  function DaysIn(year: nat, month: nat): nat {
    if month == 2 then (if year % 4 == 0 && (year % 100 != 0 || year % 400 == 0) then 29 else 28)
    else if month == 4 || month == 6 || month == 9 || month == 11 then 30
    else 31
  }

  /** `iso_date`: four digits, two, two, naming a day of the calendar. */
  predicate IsoDate(s: string) {
    && |s| == 10 && s[4] == '-' && s[7] == '-'
    && AllDigits(s[..4]) && AllDigits(s[5..7]) && AllDigits(s[8..])
    && var year, month, day := Nat(s[..4]), Nat(s[5..7]), Nat(s[8..]);
       year >= 1 && 1 <= month <= 12 && 1 <= day <= DaysIn(year, month)
  }

  predicate SymbolOk(j: Json) {
    j.Str? && SymbolText(j.s)
  }

  predicate HorizonOk(j: Json) {
    j.Str? && HorizonText(j.s)
  }

  predicate SharesOk(j: Json) {
    j.Int? && 1 <= j.n <= 1000000000
  }

  predicate ReasonOk(j: Json) {
    j.Str? && |j.s| <= 2000
  }

  predicate BoundOk(j: Json) {
    j == Null || Amount(j).Some?
  }

  predicate DateOk(j: Json) {
    j == Null || (j.Str? && IsoDate(j.s))
  }

  predicate AtLeast(a: string, b: string) {
    Numeric(a) && Numeric(b) && Value(Parse(a)) >= Value(Parse(b))
  }

  predicate Crossed(lower: Json, upper: Json) {
    lower.Str? && upper.Str? && AtLeast(lower.s, upper.s)
  }

  // ---------------------------------------------------------------- validation

  /** What normalising makes of an amount. */
  function Printed(j: Json): Json {
    if Amount(j).Some? then Str(Amount(j).value) else j
  }

  function Stripped(j: Json): Json {
    if j.Str? then Str(Strip(j.s)) else j
  }

  /** The checks before the bounds, in the order in which they are made. */
  function EarlyComplaint(v: Fields): Option<(string, string)> {
    if !SymbolOk(Get(v.symbol)) then Some(("unsupported_market", "symbol"))
    else if !HorizonOk(Get(v.horizon)) then Some(("invalid_horizon", "horizon"))
    else if !SharesOk(Get(v.shares)) then Some(("invalid_shares", "shares"))
    else if Amount(Get(v.cost)).None? then Some(("invalid_decimal", "cost"))
    else if !ReasonOk(Get(v.reason)) then Some(("invalid_reason", "reason"))
    else if !Get(v.pending).Bool? then Some(("invalid_boolean", "cost_pending"))
    else None
  }

  function LateComplaint(v: Fields): Option<(string, string)> {
    if !BoundOk(Get(v.lower)) then Some(("invalid_decimal", "lower"))
    else if !BoundOk(Get(v.upper)) then Some(("invalid_decimal", "upper"))
    else if Crossed(Printed(Get(v.lower)), Printed(Get(v.upper))) then Some(("invalid_bounds", "lower"))
    else if !DateOk(Get(v.review)) then Some(("invalid_date", "review_date"))
    else None
  }

  function Normal(v: Fields): Fields {
    v.(cost := Some(Printed(Get(v.cost))), reason := Some(Stripped(Get(v.reason))),
       lower := Some(Printed(Get(v.lower))), upper := Some(Printed(Get(v.upper))))
  }

  function Complain<T>(c: (string, string)): Checked<T> {
    Fault(c.0, c.1)
  }

  /** `validate_plan`: the first complaint, or the fields in their normal form. */
  function Validated(raw: Fields): Checked<Fields> {
    if raw.others != {} then Fault("invalid_fields", "body")
    else
      var v := Over(DEFAULTS, raw);
      if EarlyComplaint(v).Some? then Complain(EarlyComplaint(v).value)
      else if LateComplaint(v).Some? then Complain(LateComplaint(v).value)
      else Fine(Normal(v))
  }

  datatype Bound = Lower | Upper

  function Pick(v: Fields, b: Bound): Json {
    Get(if b == Lower then v.lower else v.upper)
  }

  function Put(v: Fields, b: Bound, j: Json): Fields {
    if b == Lower then v.(lower := Some(j)) else v.(upper := Some(j))
  }

  /** The loop over the two bounds, on the dictionary it updates. */
  method CheckBounds(v: Fields) returns (r: Checked<Fields>)
    requires v.lower.Some? && v.upper.Some?
    ensures r == if !BoundOk(Get(v.lower)) then Fault("invalid_decimal", "lower")
                 else if !BoundOk(Get(v.upper)) then Fault("invalid_decimal", "upper")
                 else Fine(v.(lower := Some(Printed(Get(v.lower))), upper := Some(Printed(Get(v.upper)))))
  {
    var value := v;
    var fields, i := [Lower, Upper], 0;
    while i < 2
      invariant 0 <= i <= 2
      invariant i > 0 ==> BoundOk(Get(v.lower))
      invariant i > 1 ==> BoundOk(Get(v.upper))
      invariant value == v.(lower := if i > 0 then Some(Printed(Get(v.lower))) else v.lower,
                            upper := if i > 1 then Some(Printed(Get(v.upper))) else v.upper)
    {
      var field := fields[i];
      var bound := Pick(value, field);
      if bound != Null {
        var text := Amount(bound);
        if text.None? {
          return Fault("invalid_decimal", if field == Lower then "lower" else "upper");
        }
        value := Put(value, field, Str(text.value));
      }
      i := i + 1;
    }
    r := Fine(value);
  }

  /** `validate_plan` as it runs: checks and updates of one dictionary, one after the other. */
  method ValidatePlan(raw: Fields) returns (r: Checked<Fields>)
    ensures r == Validated(raw)
  {
    if raw.others != {} {
      return Fault("invalid_fields", "body");
    }
    var value := Over(DEFAULTS, raw);
    if !SymbolOk(Get(value.symbol)) {
      return Fault("unsupported_market", "symbol");
    }
    if !HorizonOk(Get(value.horizon)) {
      return Fault("invalid_horizon", "horizon");
    }
    if !SharesOk(Get(value.shares)) {
      return Fault("invalid_shares", "shares");
    }
    var cost := Amount(Get(value.cost));
    if cost.None? {
      return Fault("invalid_decimal", "cost");
    }
    value := value.(cost := Some(Str(cost.value)));
    if !ReasonOk(Get(value.reason)) {
      return Fault("invalid_reason", "reason");
    }
    value := value.(reason := Some(Str(Strip(Get(value.reason).s))));
    if !Get(value.pending).Bool? {
      return Fault("invalid_boolean", "cost_pending");
    }
    var bounded := CheckBounds(value);
    if bounded.Fault? {
      return bounded;
    }
    value := bounded.value;
    if Crossed(Get(value.lower), Get(value.upper)) {
      return Fault("invalid_bounds", "lower");
    }
    if !DateOk(Get(value.review)) {
      return Fault("invalid_date", "review_date");
    }
    r := Fine(value);
  }

  // ---------------------------------------------------------------- what validation guarantees

  predicate Canonical(s: string) {
    PositiveDecimal(s) == Some(s)
  }

  lemma {:induction false} AmountCanonical(j: Json)
    requires Amount(j).Some?
    ensures Canonical(Amount(j).value) && Amount(Printed(j)) == Amount(j)
  {
    PositiveDecimalProjects(j.s);
  }

  /** A plan, read off its dictionary. */
  datatype PlanData = PlanData(symbol: string, horizon: string, shares: nat, cost: string, reason: string,
                               lower: Option<string>, upper: Option<string>, review: Option<string>, costPending: bool)

  function Nullable(t: Option<string>): Option<Json> {
    Some(if t.None? then Null else Str(t.value))
  }

  function Encode(d: PlanData): Fields {
    Fields(Some(Str(d.symbol)), Some(Str(d.horizon)), Some(Int(d.shares)), Some(Str(d.cost)), Some(Str(d.reason)),
           Nullable(d.lower), Nullable(d.upper), Nullable(d.review), Some(Bool(d.costPending)), {})
  }

  predicate OptionalAmount(t: Option<string>) {
    t.Some? ==> Canonical(t.value)
  }

  /** Every field valid, every amount canonical, the reason trimmed. */
  predicate NormalData(d: PlanData) {
    && SymbolText(d.symbol) && HorizonText(d.horizon) && 1 <= d.shares <= 1000000000
    && Canonical(d.cost) && Strip(d.reason) == d.reason && |d.reason| <= 2000
    && OptionalAmount(d.lower) && OptionalAmount(d.upper)
    && (d.lower.Some? && d.upper.Some? ==> !AtLeast(d.lower.value, d.upper.value))
    && (d.review.Some? ==> IsoDate(d.review.value))
  }

  /** A plan in normal form. The definition is looked into only where `Unsealed` is mentioned. */
  ghost predicate ValidData(d: PlanData) {
    forall k: nat {:trigger Unsealed(k)} :: Unsealed(k) ==> NormalData(d)
  }

  lemma {:induction false} ValidMeansNormal(d: PlanData)
    ensures ValidData(d) <==> NormalData(d)
  {
    assert Unsealed(0);
  }

  function TextOf(j: Json): Option<string> {
    if j.Str? then Some(j.s) else None
  }

  lemma {:induction false} BoundReads(j: Json)
    requires BoundOk(j)
    ensures Nullable(TextOf(Printed(j))) == Some(Printed(j)) && OptionalAmount(TextOf(Printed(j)))
  {
    if j != Null { AmountCanonical(j); }
  }

  /** The plan a dictionary without complaints describes. */
  function DataOf(v: Fields): PlanData
    requires EarlyComplaint(v) == None && LateComplaint(v) == None
  {
    PlanData(Get(v.symbol).s, Get(v.horizon).s, Get(v.shares).n, Amount(Get(v.cost)).value, Strip(Get(v.reason).s),
             TextOf(Printed(Get(v.lower))), TextOf(Printed(Get(v.upper))), TextOf(Get(v.review)), Get(v.pending).b)
  }

  lemma {:induction false} DataEncodes(v: Fields)
    requires EarlyComplaint(v) == None && LateComplaint(v) == None && v.others == {} && v.pending.Some? && v.review.Some?
    ensures Normal(v) == Encode(DataOf(v))
  {
    EarlyFine(v);
    LateFine(v);
    BoundReads(Get(v.lower));
    BoundReads(Get(v.upper));
  }

  lemma {:induction false} DataIsNormal(v: Fields)
    requires EarlyComplaint(v) == None && LateComplaint(v) == None
    ensures NormalData(DataOf(v))
  {
    EarlyFine(v);
    LateFine(v);
    BoundReads(Get(v.lower));
    BoundReads(Get(v.upper));
    PrintedCrosses(Get(v.lower), Get(v.upper));
    AmountCanonical(Get(v.cost));
    StripTwice(Get(v.reason).s);
    StripIsTrim(Get(v.reason).s);
  }

  /** What validation accepts is the dictionary of a plan in normal form. */
  lemma {:induction false} AcceptedIsNormal(raw: Fields) returns (d: PlanData)
    requires Validated(raw).Fine?
    ensures Validated(raw) == Fine(Encode(d)) && ValidData(d)
  {
    var v := Over(DEFAULTS, raw);
    d := DataOf(v);
    DataEncodes(v);
    DataIsNormal(v);
    ValidMeansNormal(d);
  }

  lemma {:induction false} CanonicalPrinted(t: Option<string>)
    requires OptionalAmount(t)
    ensures BoundOk(Get(Nullable(t))) && Printed(Get(Nullable(t))) == Get(Nullable(t))
  {
  }

  lemma {:induction false} Uncomplained(d: PlanData)
    requires ValidData(d)
    ensures EarlyComplaint(Encode(d)) == None && LateComplaint(Encode(d)) == None && Normal(Encode(d)) == Encode(d)
  {
    ValidMeansNormal(d);
    CanonicalPrinted(d.lower);
    CanonicalPrinted(d.upper);
  }

  /** A plan in normal form validates to itself, so validation is a projection. */
  lemma {:induction false} NormalValidates(d: PlanData)
    requires ValidData(d)
    ensures Validated(Encode(d)) == Fine(Encode(d))
  {
    Uncomplained(d);
    assert Over(DEFAULTS, Encode(d)) == Encode(d);
  }

  lemma {:induction false} ValidationProjects(raw: Fields)
    requires Validated(raw).Fine?
    ensures Validated(Validated(raw).value) == Validated(raw)
  {
    var d := AcceptedIsNormal(raw);
    NormalValidates(d);
  }

  /** `after` differs from `before` at most where the patch has a value. */
  predicate OnlyPatched(before: Fields, patch: Fields, after: Fields) {
    && (patch.symbol.None? ==> after.symbol == before.symbol)
    && (patch.horizon.None? ==> after.horizon == before.horizon)
    && (patch.shares.None? ==> after.shares == before.shares)
    && (patch.cost.None? ==> after.cost == before.cost)
    && (patch.reason.None? ==> after.reason == before.reason)
    && (patch.lower.None? ==> after.lower == before.lower)
    && (patch.upper.None? ==> after.upper == before.upper)
    && (patch.review.None? ==> after.review == before.review)
    && (patch.pending.None? ==> after.pending == before.pending)
    && after.others == before.others
  }

  /** A patch changes only what it names; in particular the empty patch changes nothing. */
  lemma {:induction false} PatchKeepsTheRest(d: PlanData, patch: Fields)
    requires ValidData(d) && Validated(Over(Encode(d), patch)).Fine?
    ensures OnlyPatched(Encode(d), patch, Validated(Over(Encode(d), patch)).value)
  {
    Uncomplained(d);
    ValidMeansNormal(d);
    CanonicalPrinted(d.lower);
    CanonicalPrinted(d.upper);
  }

  lemma {:induction false} EmptyPatch(d: PlanData)
    requires ValidData(d)
    ensures Validated(Over(Encode(d), NOTHING)) == Fine(Encode(d))
  {
    NormalValidates(d);
    assert Over(Encode(d), NOTHING) == Encode(d);
  }

  lemma {:induction false} PrintedCrosses(lower: Json, upper: Json)
    requires BoundOk(lower) && BoundOk(upper)
    ensures Crossed(Printed(lower), Printed(upper)) <==> Crossed(lower, upper)
  {
    if lower != Null && upper != Null {
      PositiveDecimalProjects(lower.s);
      PositiveDecimalProjects(upper.s);
    }
  }

  lemma {:induction false} EarlyFine(v: Fields)
    ensures EarlyComplaint(v) == None <==>
            && SymbolOk(Get(v.symbol)) && HorizonOk(Get(v.horizon)) && SharesOk(Get(v.shares))
            && Amount(Get(v.cost)).Some? && ReasonOk(Get(v.reason)) && Get(v.pending).Bool?
  {
  }

  lemma {:induction false} LateFine(v: Fields)
    ensures LateComplaint(v) == None <==>
            && BoundOk(Get(v.lower)) && BoundOk(Get(v.upper)) && !Crossed(Get(v.lower), Get(v.upper))
            && DateOk(Get(v.review))
  {
    if BoundOk(Get(v.lower)) && BoundOk(Get(v.upper)) {
      PrintedCrosses(Get(v.lower), Get(v.upper));
    }
  }

  /** A dictionary is accepted exactly when it has only known keys and each field passes. */
  lemma {:induction false} AcceptedWhen(raw: Fields)
    ensures Validated(raw).Fine? <==>
            && raw.others == {}
            && SymbolOk(Get(raw.symbol)) && HorizonOk(Get(raw.horizon)) && SharesOk(Get(raw.shares))
            && Amount(Get(raw.cost)).Some?
            && (raw.reason.Some? ==> ReasonOk(raw.reason.value))
            && (raw.pending.Some? ==> raw.pending.value.Bool?)
            && BoundOk(Get(raw.lower)) && BoundOk(Get(raw.upper))
            && !Crossed(Get(raw.lower), Get(raw.upper))
            && DateOk(Get(raw.review))
  {
    var v := Over(DEFAULTS, raw);
    EarlyFine(v);
    LateFine(v);
    assert ReasonOk(Str(""));
    assert Get(v.lower) == Get(raw.lower) && Get(v.upper) == Get(raw.upper) && Get(v.review) == Get(raw.review);
  }
}
