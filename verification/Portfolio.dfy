/**
 The durable portfolio state (`web/portfolio/store.py`): plans under optimistic revisions, the
 watchlist, settings and the queue of close checks. Every operation is one transaction.
 */
module Portfolio {
  import opened Wrappers
  import opened Text
  import opened Decimals
  import opened Money
  import opened Plans
  import opened Valuation
  import opened Overview
  import opened Concentrations

  /** A reading of the clock, with its local date, weekday (Monday is 0) and time of day. */
  datatype Moment = Moment(instant: int, day: string, weekday: nat, time: nat)

  datatype Source = Manual | Automatic

  datatype Status = Queued | Running | Completed | Partial | Failed | Interrupted

  /** A row of `portfolio_checks`; of its creation the database keeps the instant. */
  datatype Check = Check(source: Source, target: Option<string>, attempt: nat, status: Status,
                         plans: seq<Plan>, results: seq<Reading>, error: Option<string>, created: Moment)

  /** Rows keep the order of their insertion. */
  datatype Db = Db(instruments: set<string>, watch: map<string, string>, plans: seq<Held>, checks: seq<Check>,
                   automatic: bool, limit: Option<string>)

  const LIMIT: nat := 100

  // ---------------------------------------------------------------- stocks

  function SymbolsHeld(plans: seq<Held>): set<string> {
    if plans == [] then {}
    else
      var last := plans[|plans| - 1];
      SymbolsHeld(plans[..|plans| - 1]) + (if last.active then {last.plan.data.symbol} else {})
  }

  /** Watched stocks and stocks of active plans. */
  function StocksOf(db: Db): set<string> {
    db.watch.Keys + SymbolsHeld(db.plans)
  }

  predicate HasRoom(db: Db, symbol: string) {
    symbol in StocksOf(db) || |StocksOf(db)| < LIMIT
  }

  // ---------------------------------------------------------------- watchlist, instruments, settings

  function Upsert(db: Db, symbol: string): Db {
    db.(instruments := db.instruments + {symbol})
  }

  function AddWatch(db: Db, symbol: string, reason: Json): Checked<Db> {
    if !ReasonOk(reason) then Fault("invalid_reason", "reason")
    else if symbol !in db.instruments then Fault("instrument_unverified", "symbol")
    else if !HasRoom(db, symbol) then Fault("stock_limit", "symbol")
    else if symbol in db.watch then Fault("watch_exists", "symbol")
    else Fine(db.(watch := db.watch[symbol := Strip(reason.s)]))
  }

  function UpdateWatch(db: Db, symbol: string, reason: Json): Checked<Db> {
    if !ReasonOk(reason) then Fault("invalid_reason", "reason")
    else if symbol !in db.watch then Fault("not_found", "body")
    else Fine(db.(watch := db.watch[symbol := Strip(reason.s)]))
  }

  function RemoveWatch(db: Db, symbol: string): Checked<Db> {
    if symbol !in db.watch then Fault("not_found", "body") else Fine(db.(watch := db.watch - {symbol}))
  }

  datatype SettingsPatch = SettingsPatch(automatic: Option<Json>, limit: Option<Json>, others: set<string>)

  function UpdateSettings(db: Db, raw: SettingsPatch): Checked<Db> {
    if raw.others != {} then Fault("invalid_fields", "body")
    else
      var automatic := if raw.automatic.Some? then raw.automatic.value else Bool(db.automatic);
      var limit := if raw.limit.Some? then raw.limit.value else Get(Nullable(db.limit));
      if !automatic.Bool? then Fault("invalid_boolean", "automatic")
      else if limit == Null then Fine(db.(automatic := automatic.b, limit := None))
      else if Amount(limit).None? then Fault("invalid_decimal", "concentration_limit")
      else if Value(Number(Amount(limit).value)) > 100.0 then Fault("invalid_threshold", "concentration_limit")
      else Fine(db.(automatic := automatic.b, limit := Some(Amount(limit).value)))
  }

  // ---------------------------------------------------------------- plans

  function FindPlan(plans: seq<Held>, id: string): Option<nat> {
    if plans == [] then None
    else if plans[|plans| - 1].plan.id == id then Some(|plans| - 1)
    else FindPlan(plans[..|plans| - 1], id)
  }

  lemma {:induction false} FindPlanIsThere(plans: seq<Held>, id: string)
    ensures FindPlan(plans, id).Some? ==> FindPlan(plans, id).value < |plans| && plans[FindPlan(plans, id).value].plan.id == id
    ensures FindPlan(plans, id).None? <==> forall i :: 0 <= i < |plans| ==> plans[i].plan.id != id
  {
    if plans == [] {
    } else {
      var front := plans[..|plans| - 1];
      FindPlanIsThere(front, id);
      assert forall i :: 0 <= i < |front| ==> plans[i] == front[i];
    }
  }

  /** The plan a validated dictionary describes. */
  function Typed(v: Fields): PlanData {
    PlanData(Words(v.symbol), Words(v.horizon), if Get(v.shares).Int? && Get(v.shares).n >= 0 then Get(v.shares).n else 0,
             Words(v.cost), Words(v.reason), TextOf(Get(v.lower)), TextOf(Get(v.upper)), TextOf(Get(v.review)),
             Get(v.pending) == Bool(true))
  }

  function Words(f: Option<Json>): string {
    if Get(f).Str? then Get(f).s else ""
  }

  lemma {:induction false} TypedReads(d: PlanData)
    ensures Typed(Encode(d)) == d
  {
  }

  function Append(db: Db, h: Held): Db {
    db.(plans := db.plans + [h])
  }

  /** The identifier is new: a random UUID. */
  function CreatePlan(db: Db, id: string, raw: Fields): Checked<Db> {
    match Validated(raw)
    case Fault(code, field) => Fault(code, field)
    case Fine(v) =>
      var d := Typed(v);
      if d.symbol !in db.instruments then Fault("instrument_unverified", "symbol")
      else if !HasRoom(db, d.symbol) then Fault("stock_limit", "symbol")
      else Fine(Append(db, Held(Plan(id, 1, d), true)))
  }

  /** `_guard`. */
  function Guard(db: Db, id: string, revision: nat): Option<(string, string)> {
    match FindPlan(db.plans, id)
    case None => Some(("not_found", "body"))
    case Some(i) =>
      if i >= |db.plans| || db.plans[i].plan.revision != revision then Some(("revision_conflict", "revision"))
      else if !db.plans[i].active then Some(("plan_closed", "body"))
      else None
  }

  function At(db: Db, id: string): Held
    requires FindPlan(db.plans, id).Some?
  {
    FindPlanIsThere(db.plans, id);
    db.plans[FindPlan(db.plans, id).value]
  }

  function Replace(db: Db, id: string, h: Held): Db
    requires FindPlan(db.plans, id).Some?
  {
    FindPlanIsThere(db.plans, id);
    db.(plans := db.plans[FindPlan(db.plans, id).value := h])
  }

  function UpdatePlan(db: Db, id: string, revision: nat, patch: Fields): Checked<Db> {
    if Guard(db, id, revision).Some? then Complain(Guard(db, id, revision).value)
    else
      var row := At(db, id);
      match Validated(Over(Encode(row.plan.data), patch))
      case Fault(code, field) => Fault(code, field)
      case Fine(v) =>
        var d := Typed(v);
        if d.symbol != row.plan.data.symbol then Fault("symbol_immutable", "symbol")
        else Fine(Replace(db, id, Held(Plan(id, revision + 1, d), true)))
  }

  function ClosePlan(db: Db, id: string, revision: nat): Checked<Db> {
    if Guard(db, id, revision).Some? then Complain(Guard(db, id, revision).value)
    else Fine(Replace(db, id, Held(Plan(id, revision + 1, At(db, id).plan.data), false)))
  }

  // ---------------------------------------------------------------- the check queue

  predicate Pending(c: Check) {
    c.status == Queued || c.status == Running
  }

  predicate AnyPending(checks: seq<Check>) {
    exists i :: 0 <= i < |checks| && Pending(checks[i])
  }

  predicate IsAttempt(c: Check, day: string) {
    c.source == Automatic && c.target == Some(day)
  }

  predicate AttemptTaken(checks: seq<Check>, day: string, attempt: nat) {
    exists i :: 0 <= i < |checks| && IsAttempt(checks[i], day) && checks[i].attempt == attempt
  }

  function NewCheck(source: Source, target: Option<string>, attempt: nat, now: Moment): Check {
    Check(source, target, attempt, Queued, [], [], None, now)
  }

  function EnqueueManual(db: Db, now: Moment): Db {
    if AnyPending(db.checks) then db else db.(checks := db.checks + [NewCheck(Manual, None, 0, now)])
  }

  function EnqueueAutomatic(db: Db, day: string, attempt: nat, now: Moment): Db {
    if AnyPending(db.checks) || AttemptTaken(db.checks, day, attempt) then db
    else db.(checks := db.checks + [NewCheck(Automatic, Some(day), attempt, now)])
  }

  function FirstQueued(checks: seq<Check>): Option<nat> {
    if checks == [] then None
    else
      match FirstQueued(checks[..|checks| - 1])
      case Some(i) => Some(i)
      case None => if checks[|checks| - 1].status == Queued then Some(|checks| - 1) else None
  }

  lemma {:induction false} FirstQueuedIsThere(checks: seq<Check>)
    ensures FirstQueued(checks).Some? ==> FirstQueued(checks).value < |checks| && checks[FirstQueued(checks).value].status == Queued
    ensures FirstQueued(checks).None? ==> forall i :: 0 <= i < |checks| ==> checks[i].status != Queued
  {
    if checks == [] {
    } else {
      FirstQueuedIsThere(checks[..|checks| - 1]);
      assert forall i :: 0 <= i < |checks| - 1 ==> checks[i] == checks[..|checks| - 1][i];
    }
  }

  function Claiming(checks: seq<Check>, plans: seq<Plan>): seq<Check> {
    FirstQueuedIsThere(checks);
    match FirstQueued(checks)
    case None => checks
    case Some(k) => checks[k := checks[k].(status := Running, plans := plans)]
  }

  /** The queued check becomes running, with the active plans as they are now. */
  function Claim(db: Db): (Db, Option<nat>) {
    (db.(checks := Claiming(db.checks, Active(db.plans))), FirstQueued(db.checks))
  }

  function Targeting(checks: seq<Check>, k: nat, day: string): seq<Check> {
    if k < |checks| && checks[k].status == Running then checks[k := checks[k].(target := Some(day))] else checks
  }

  function SetTarget(db: Db, k: nat, day: string): Db {
    db.(checks := Targeting(db.checks, k, day))
  }

  function Complete(db: Db, k: nat, results: seq<Reading>, status: Status): Checked<Db> {
    if !(status == Completed || status == Partial || status == Failed) then Fault("invalid_check_status", "body")
    else if k >= |db.checks| || db.checks[k].status != Running then Fault("check_not_running", "body")
    else Fine(db.(checks := db.checks[k := db.checks[k].(status := status, results := results)]))
  }

  function Failing(checks: seq<Check>, k: nat, code: string): seq<Check> {
    if k < |checks| && checks[k].status == Running
    then checks[k := checks[k].(status := Failed, error := Some(code))] else checks
  }

  function Fail(db: Db, k: nat, code: string): Db {
    db.(checks := Failing(db.checks, k, code))
  }

  function Recovered(checks: seq<Check>): (r: seq<Check>)
    ensures |r| == |checks|
    ensures forall i :: 0 <= i < |r| ==>
              r[i] == if checks[i].status == Running then checks[i].(status := Interrupted, error := Some("interrupted")) else checks[i]
  {
    if checks == [] then []
    else
      var last := checks[|checks| - 1];
      Recovered(checks[..|checks| - 1]) +
        [if last.status == Running then last.(status := Interrupted, error := Some("interrupted")) else last]
  }

  function Recover(db: Db): Db {
    db.(checks := Recovered(db.checks))
  }

  /** `latest_check`: the latest creation, the later row on a tie. */
  function Latest(checks: seq<Check>): Option<Check> {
    if checks == [] then None
    else
      var last := checks[|checks| - 1];
      match Latest(checks[..|checks| - 1])
      case None => Some(last)
      case Some(c) => if c.created.instant > last.created.instant then Some(c) else Some(last)
  }

  function Attempts(checks: seq<Check>, day: string): seq<Check> {
    if checks == [] then []
    else
      var last := checks[|checks| - 1];
      Attempts(checks[..|checks| - 1], day) + (if IsAttempt(last, day) then [last] else [])
  }

  predicate HasSuccess(checks: seq<Check>, day: string) {
    exists i :: 0 <= i < |checks| && checks[i].target == Some(day) && checks[i].status == Completed
  }

  // ---------------------------------------------------------------- what every operation keeps

  ghost predicate RowSound(instruments: set<string>, h: Held) {
    ValidData(h.plan.data) && h.plan.data.symbol in instruments
  }

  ghost predicate RowsSound(instruments: set<string>, plans: seq<Held>) {
    forall i :: 0 <= i < |plans| ==> RowSound(instruments, plans[i])
  }

  ghost predicate DistinctIds(plans: seq<Held>) {
    forall i, j :: 0 <= i < j < |plans| ==> plans[i].plan.id != plans[j].plan.id
  }

  /** Every plan is valid and of a verified instrument, under an identifier of its own. */
  ghost predicate PlansSound(db: Db) {
    RowsSound(db.instruments, db.plans) && DistinctIds(db.plans)
  }

  /** At most a hundred stocks are watched or held. */
  ghost predicate FewStocks(db: Db) {
    |StocksOf(db)| <= LIMIT
  }

  lemma {:induction false} HeldSnoc(plans: seq<Held>, h: Held)
    ensures SymbolsHeld(plans + [h]) == SymbolsHeld(plans) + (if h.active then {h.plan.data.symbol} else {})
  {
    assert (plans + [h])[..|plans|] == plans;
  }

  lemma {:induction false} HeldMeans(plans: seq<Held>, symbol: string)
    ensures symbol in SymbolsHeld(plans) <==> exists i :: 0 <= i < |plans| && plans[i].active && plans[i].plan.data.symbol == symbol
  {
    if plans == [] {
    } else {
      var front := plans[..|plans| - 1];
      HeldMeans(front, symbol);
      assert forall i :: 0 <= i < |front| ==> plans[i] == front[i];
    }
  }

  /** Replacing an active plan by one of the same stock adds no stock. */
  lemma {:induction false} HeldReplaced(plans: seq<Held>, i: nat, h: Held)
    requires i < |plans| && plans[i].active && h.plan.data.symbol == plans[i].plan.data.symbol
    ensures SymbolsHeld(plans[i := h]) <= SymbolsHeld(plans)
    ensures h.active ==> SymbolsHeld(plans[i := h]) == SymbolsHeld(plans)
  {
    var after := plans[i := h];
    forall symbol | symbol in SymbolsHeld(after)
      ensures symbol in SymbolsHeld(plans)
    {
      HeldMeans(after, symbol);
      HeldMeans(plans, symbol);
      var k :| 0 <= k < |after| && after[k].active && after[k].plan.data.symbol == symbol;
      assert plans[k].active && plans[k].plan.data.symbol == symbol;
    }
    if h.active {
      forall symbol | symbol in SymbolsHeld(plans)
        ensures symbol in SymbolsHeld(after)
      {
        HeldMeans(after, symbol);
        HeldMeans(plans, symbol);
        var k :| 0 <= k < |plans| && plans[k].active && plans[k].plan.data.symbol == symbol;
        assert after[k].active && after[k].plan.data.symbol == symbol;
      }
    }
  }

  lemma {:induction false} SubsetSize(a: set<string>, b: set<string>)
    requires a <= b
    ensures |a| <= |b|
  {
    if a != b {
      var x :| x in b && x !in a;
      SubsetSize(a, b - {x});
    }
  }

  lemma {:induction false} OneMoreStock(db: Db, symbol: string)
    requires FewStocks(db) && HasRoom(db, symbol)
    ensures |StocksOf(db) + {symbol}| <= LIMIT
  {
    if symbol in StocksOf(db) {
      assert StocksOf(db) + {symbol} == StocksOf(db);
    }
  }

  lemma {:induction false} IdsAppended(plans: seq<Held>, h: Held)
    requires DistinctIds(plans) && FindPlan(plans, h.plan.id).None?
    ensures DistinctIds(plans + [h])
  {
    FindPlanIsThere(plans, h.plan.id);
  }

  lemma {:induction false} RowsAppended(instruments: set<string>, plans: seq<Held>, h: Held)
    requires RowsSound(instruments, plans) && RowSound(instruments, h)
    ensures RowsSound(instruments, plans + [h])
  {
    forall i | 0 <= i < |plans + [h]|
      ensures RowSound(instruments, (plans + [h])[i])
    {
      if i < |plans| { assert RowSound(instruments, plans[i]); }
    }
  }

  lemma {:induction false} AppendKeeps(db: Db, h: Held)
    requires PlansSound(db) && FewStocks(db) && FindPlan(db.plans, h.plan.id).None? && h.active
    requires RowSound(db.instruments, h) && HasRoom(db, h.plan.data.symbol)
    ensures PlansSound(Append(db, h)) && FewStocks(Append(db, h))
  {
    IdsAppended(db.plans, h);
    RowsAppended(db.instruments, db.plans, h);
    HeldSnoc(db.plans, h);
    OneMoreStock(db, h.plan.data.symbol);
    assert StocksOf(Append(db, h)) == StocksOf(db) + {h.plan.data.symbol};
  }

  lemma {:induction false} CreateKeeps(db: Db, id: string, raw: Fields)
    requires PlansSound(db) && FewStocks(db) && FindPlan(db.plans, id).None?
    ensures CreatePlan(db, id, raw).Fine? ==> PlansSound(CreatePlan(db, id, raw).value) && FewStocks(CreatePlan(db, id, raw).value)
  {
    if CreatePlan(db, id, raw).Fine? {
      var d := AcceptedIsNormal(raw);
      TypedReads(d);
      AppendKeeps(db, Held(Plan(id, 1, d), true));
    }
  }

  lemma {:induction false} RowsReplaced(instruments: set<string>, plans: seq<Held>, i: nat, h: Held)
    requires RowsSound(instruments, plans) && i < |plans| && RowSound(instruments, h)
    ensures RowsSound(instruments, plans[i := h])
  {
    var after := plans[i := h];
    forall k | 0 <= k < |after|
      ensures RowSound(instruments, after[k])
    {
      if k != i { assert RowSound(instruments, plans[k]); }
    }
  }

  lemma {:induction false} SoundReplaced(db: Db, i: nat, h: Held)
    requires PlansSound(db) && i < |db.plans| && ValidData(h.plan.data)
    requires h.plan.id == db.plans[i].plan.id && h.plan.data.symbol == db.plans[i].plan.data.symbol
    ensures PlansSound(db.(plans := db.plans[i := h]))
  {
    assert RowSound(db.instruments, db.plans[i]);
    RowsReplaced(db.instruments, db.plans, i, h);
    var after := db.plans[i := h];
    assert forall k :: 0 <= k < |after| ==> after[k].plan.id == db.plans[k].plan.id;
  }

  lemma {:induction false} ReplaceKeeps(db: Db, id: string, h: Held)
    requires PlansSound(db) && FewStocks(db) && FindPlan(db.plans, id).Some? && At(db, id).active
    requires ValidData(h.plan.data) && h.plan.id == id && h.plan.data.symbol == At(db, id).plan.data.symbol
    ensures PlansSound(Replace(db, id, h)) && FewStocks(Replace(db, id, h))
  {
    FindPlanIsThere(db.plans, id);
    var i := FindPlan(db.plans, id).value;
    SoundReplaced(db, i, h);
    HeldReplaced(db.plans, i, h);
    SubsetSize(StocksOf(Replace(db, id, h)), StocksOf(db));
  }

  lemma {:induction false} GuardPasses(db: Db, id: string, revision: nat)
    ensures Guard(db, id, revision) == None <==>
            FindPlan(db.plans, id).Some? && At(db, id).plan.revision == revision && At(db, id).active
  {
    FindPlanIsThere(db.plans, id);
  }

  lemma {:induction false} UpdateKeeps(db: Db, id: string, revision: nat, patch: Fields)
    requires PlansSound(db) && FewStocks(db)
    ensures UpdatePlan(db, id, revision, patch).Fine? ==>
              PlansSound(UpdatePlan(db, id, revision, patch).value) && FewStocks(UpdatePlan(db, id, revision, patch).value)
  {
    if UpdatePlan(db, id, revision, patch).Fine? {
      GuardPasses(db, id, revision);
      var row := At(db, id);
      var d := AcceptedIsNormal(Over(Encode(row.plan.data), patch));
      TypedReads(d);
      ReplaceKeeps(db, id, Held(Plan(id, revision + 1, d), true));
    }
  }

  lemma {:induction false} CloseKeeps(db: Db, id: string, revision: nat)
    requires PlansSound(db) && FewStocks(db)
    ensures ClosePlan(db, id, revision).Fine? ==>
              PlansSound(ClosePlan(db, id, revision).value) && FewStocks(ClosePlan(db, id, revision).value)
  {
    if ClosePlan(db, id, revision).Fine? {
      GuardPasses(db, id, revision);
      FindPlanIsThere(db.plans, id);
      ReplaceKeeps(db, id, Held(Plan(id, revision + 1, At(db, id).plan.data), false));
    }
  }

  lemma {:induction false} AddWatchKeeps(db: Db, symbol: string, reason: Json)
    requires PlansSound(db) && FewStocks(db)
    ensures AddWatch(db, symbol, reason).Fine? ==>
              PlansSound(AddWatch(db, symbol, reason).value) && FewStocks(AddWatch(db, symbol, reason).value)
  {
    if AddWatch(db, symbol, reason).Fine? {
      OneMoreStock(db, symbol);
      assert StocksOf(AddWatch(db, symbol, reason).value) == StocksOf(db) + {symbol};
    }
  }

  lemma {:induction false} UpdateWatchKeeps(db: Db, symbol: string, reason: Json)
    requires PlansSound(db) && FewStocks(db)
    ensures UpdateWatch(db, symbol, reason).Fine? ==>
              PlansSound(UpdateWatch(db, symbol, reason).value) && FewStocks(UpdateWatch(db, symbol, reason).value)
  {
    if UpdateWatch(db, symbol, reason).Fine? {
      assert StocksOf(UpdateWatch(db, symbol, reason).value) == StocksOf(db);
    }
  }

  lemma {:induction false} RemoveWatchKeeps(db: Db, symbol: string)
    requires PlansSound(db) && FewStocks(db)
    ensures RemoveWatch(db, symbol).Fine? ==>
              PlansSound(RemoveWatch(db, symbol).value) && FewStocks(RemoveWatch(db, symbol).value)
  {
    if RemoveWatch(db, symbol).Fine? {
      SubsetSize(StocksOf(RemoveWatch(db, symbol).value), StocksOf(db));
    }
  }

  /** A settings update stores only limits a summary can compare with. */
  lemma {:induction false} LimitIsComparable(db: Db, raw: SettingsPatch)
    requires UpdateSettings(db, raw).Fine? && UpdateSettings(db, raw).value.limit.Some?
    ensures Limit(UpdateSettings(db, raw).value.limit.value)
  {
    var limit := if raw.limit.Some? then raw.limit.value else Get(Nullable(db.limit));
    AmountCanonical(limit);
    var s := Amount(limit).value;
    PricedUnits(s);
    UnitsValue(Number(s));
  }

  /** The empty patch stores the same plan under the next revision. */
  lemma {:induction false} EmptyPatchKeepsData(db: Db, id: string, revision: nat)
    requires PlansSound(db) && Guard(db, id, revision) == None
    ensures UpdatePlan(db, id, revision, NOTHING).Fine?
    ensures FindPlan(db.plans, id).Some? && FindPlan(UpdatePlan(db, id, revision, NOTHING).value.plans, id).Some?
    ensures At(UpdatePlan(db, id, revision, NOTHING).value, id) == Held(Plan(id, revision + 1, At(db, id).plan.data), true)
  {
    GuardPasses(db, id, revision);
    FindPlanIsThere(db.plans, id);
    var i := FindPlan(db.plans, id).value;
    var d := db.plans[i].plan.data;
    EmptyPatch(d);
    TypedReads(d);
    var after := UpdatePlan(db, id, revision, NOTHING).value;
    FindPlanIsThere(after.plans, id);
    assert after.plans[i].plan.id == id;
  }

  lemma {:induction false} UpsertKeeps(db: Db, symbol: string)
    requires PlansSound(db) && FewStocks(db)
    ensures PlansSound(Upsert(db, symbol)) && FewStocks(Upsert(db, symbol))
  {
    var after := Upsert(db, symbol);
    forall i | 0 <= i < |after.plans|
      ensures RowSound(after.instruments, after.plans[i])
    {
      assert RowSound(db.instruments, db.plans[i]);
    }
    assert StocksOf(after) == StocksOf(db);
  }

  lemma {:induction false} SettingsFrame(db: Db, raw: SettingsPatch)
    ensures UpdateSettings(db, raw).Fine? ==>
              var after := UpdateSettings(db, raw).value;
              after == db.(automatic := after.automatic, limit := after.limit)
  {
  }

  lemma {:induction false} SettingsKeep(db: Db, automatic: bool, limit: Option<string>)
    requires PlansSound(db) && FewStocks(db)
    ensures var after := db.(automatic := automatic, limit := limit); PlansSound(after) && FewStocks(after)
  {
    assert StocksOf(db.(automatic := automatic, limit := limit)) == StocksOf(db);
  }

  lemma {:induction false} UpdateSettingsKeeps(db: Db, raw: SettingsPatch)
    requires PlansSound(db) && FewStocks(db)
    ensures UpdateSettings(db, raw).Fine? ==>
              PlansSound(UpdateSettings(db, raw).value) && FewStocks(UpdateSettings(db, raw).value)
  {
    SettingsFrame(db, raw);
    if UpdateSettings(db, raw).Fine? {
      var after := UpdateSettings(db, raw).value;
      SettingsKeep(db, after.automatic, after.limit);
    }
  }
}
