/**
 `PortfolioStore` as an object whose methods change its tables in place, each refining the
 transaction of the same name in `Portfolio`.
 */
module PortfolioService {
  import opened Wrappers
  import opened Text
  import opened Decimals
  import opened Plans
  import opened Valuation
  import opened Overview
  import opened Concentrations
  import opened Portfolio

  datatype Refusal = Refusal(code: string, field: string)

  /** What a method may do: apply the transaction, or refuse with its fault and change nothing. */
  ghost predicate Applies(before: Db, spec: Checked<Db>, after: Db, error: Option<Refusal>) {
    match spec
    case Fine(db) => after == db && error == None
    case Fault(code, field) => after == before && error == Some(Refusal(code, field))
  }

  /** Ended checks are final. */
  ghost predicate EndedStay(before: seq<Check>, after: seq<Check>) {
    |before| <= |after| && forall i :: 0 <= i < |before| && !Pending(before[i]) ==> after[i] == before[i]
  }

  ghost predicate OneInFlight(checks: seq<Check>) {
    forall i, j :: 0 <= i < j < |checks| && Pending(checks[i]) ==> !Pending(checks[j])
  }

  /** Every other plan is as it was. */
  ghost predicate OthersStay(before: seq<Held>, after: seq<Held>, id: string) {
    |before| == |after| && forall i :: 0 <= i < |before| && before[i].plan.id != id ==> after[i] == before[i]
  }

  /** A new plan is the one its identifier finds. */
  lemma {:induction false} NewPlanPasses(db: Db, id: string, data: PlanData)
    ensures Guard(Append(db, Held(Plan(id, 1, data), true)), id, 1) == None
  {
  }

  lemma {:induction false} StillFound(plans: seq<Held>, id: string, at: nat, h: Held)
    requires FindPlan(plans, id) == Some(at) && at < |plans| && h.plan.id == id
    ensures FindPlan(plans[at := h], id) == Some(at)
  {
    var n := |plans| - 1;
    if at == n {
    } else {
      assert plans[at := h][..n] == plans[..n][at := h];
      StillFound(plans[..n], id, at, h);
    }
  }

  /** A replaced plan is found where it was, under its new revision. */
  lemma {:induction false} PlanReplaced(db: Db, at: nat, h: Held)
    requires FindPlan(db.plans, h.plan.id) == Some(at) && at < |db.plans|
    ensures var after := db.(plans := db.plans[at := h]);
            && OthersStay(db.plans, after.plans, h.plan.id)
            && (forall r: nat :: Guard(after, h.plan.id, r) ==
                 if r != h.plan.revision then Some(("revision_conflict", "revision"))
                 else if !h.active then Some(("plan_closed", "body")) else None)
  {
    FindPlanIsThere(db.plans, h.plan.id);
    StillFound(db.plans, h.plan.id, at, h);
  }

  class PortfolioStore {
    var instruments: set<string>
    var watch: map<string, string>
    var plans: seq<Held>
    var checks: seq<Check>
    var automatic: bool
    var limit: Option<string>

    ghost function View(): Db
      reads this
    {
      Db(instruments, watch, plans, checks, automatic, limit)
    }

    /** Valid plans of verified instruments, a hundred stocks at most, a usable limit, one check in flight. */
    ghost predicate Valid()
      reads this
    {
      && PlansSound(View()) && FewStocks(View())
      && (limit.Some? ==> Limit(limit.value))
      && OneInFlight(checks)
    }

    constructor ()
      ensures View() == Db({}, map[], [], [], true, None)
      ensures Valid()
    {
      instruments, watch, plans, checks, automatic, limit := {}, map[], [], [], true, None;
    }

    method UpsertInstrument(symbol: string)
      requires Valid()
      modifies this`instruments
      ensures View() == Upsert(old(View()), symbol)
      ensures Valid()
      ensures symbol in instruments && old(instruments) <= instruments
    {
      UpsertKeeps(View(), symbol);
      instruments := instruments + {symbol};
    }

    /** The union of the watched and the held symbols, collected row by row. */
    method LimitReached(symbol: string) returns (reached: bool)
      ensures reached == !HasRoom(View(), symbol)
    {
      var symbols, i := watch.Keys, 0;
      while i < |plans|
        invariant 0 <= i <= |plans|
        invariant symbols == watch.Keys + SymbolsHeld(plans[..i])
      {
        HeldSnoc(plans[..i], plans[i]);
        assert plans[..i + 1] == plans[..i] + [plans[i]];
        if plans[i].active {
          symbols := symbols + {plans[i].plan.data.symbol};
        }
        i := i + 1;
      }
      assert plans[..i] == plans;
      reached := symbol !in symbols && |symbols| >= 100;
    }

    method AddWatch(symbol: string, reason: Json) returns (error: Option<Refusal>)
      requires Valid()
      modifies this`watch
      ensures Applies(old(View()), Portfolio.AddWatch(old(View()), symbol, reason), View(), error)
      ensures Valid()
      ensures error == None ==> symbol in instruments && symbol !in old(watch) && symbol in watch
      ensures forall other :: other != symbol ==> (other in watch <==> other in old(watch))
    {
      AddWatchKeeps(View(), symbol, reason);
      if !reason.Str? || |reason.s| > 2000 {
        return Some(Refusal("invalid_reason", "reason"));
      }
      if symbol !in instruments {
        return Some(Refusal("instrument_unverified", "symbol"));
      }
      var reached := LimitReached(symbol);
      if reached {
        return Some(Refusal("stock_limit", "symbol"));
      }
      if symbol in watch {
        return Some(Refusal("watch_exists", "symbol"));
      }
      watch := watch[symbol := Strip(reason.s)];
      error := None;
    }

    method UpdateWatch(symbol: string, reason: Json) returns (error: Option<Refusal>)
      requires Valid()
      modifies this`watch
      ensures Applies(old(View()), Portfolio.UpdateWatch(old(View()), symbol, reason), View(), error)
      ensures Valid()
      ensures watch.Keys == old(watch).Keys
      ensures forall other :: other != symbol && other in watch ==> watch[other] == old(watch[other])
    {
      UpdateWatchKeeps(View(), symbol, reason);
      if !reason.Str? || |reason.s| > 2000 {
        return Some(Refusal("invalid_reason", "reason"));
      }
      if symbol !in watch {
        return Some(Refusal("not_found", "body"));
      }
      watch := watch[symbol := Strip(reason.s)];
      error := None;
    }

    method RemoveWatch(symbol: string) returns (error: Option<Refusal>)
      requires Valid()
      modifies this`watch
      ensures Applies(old(View()), Portfolio.RemoveWatch(old(View()), symbol), View(), error)
      ensures Valid()
      ensures error == None <==> symbol in old(watch)
      ensures symbol !in watch && forall other :: other != symbol && other in old(watch) ==> other in watch && watch[other] == old(watch[other])
    {
      RemoveWatchKeeps(View(), symbol);
      if symbol !in watch {
        return Some(Refusal("not_found", "body"));
      }
      watch := watch - {symbol};
      error := None;
    }

    /** Looks a plan up from the newest row back. */
    method Locate(id: string) returns (at: Option<nat>)
      ensures at == FindPlan(plans, id)
      ensures at.Some? ==> at.value < |plans|
    {
      var i := |plans|;
      assert plans[..i] == plans;
      while i > 0
        invariant 0 <= i <= |plans|
        invariant FindPlan(plans, id) == FindPlan(plans[..i], id)
      {
        if plans[i - 1].plan.id == id {
          return Some(i - 1);
        }
        assert plans[..i][..i - 1] == plans[..i - 1];
        i := i - 1;
      }
      at := None;
    }

    method CreatePlan(id: string, raw: Fields) returns (error: Option<Refusal>)
      requires Valid() && FindPlan(plans, id).None?
      modifies this`plans
      ensures Applies(old(View()), Portfolio.CreatePlan(old(View()), id, raw), View(), error)
      ensures Valid()
      ensures error == None ==> Guard(View(), id, 1) == None
      ensures old(plans) <= plans
    {
      CreateKeeps(View(), id, raw);
      var value := ValidatePlan(raw);
      if value.Fault? {
        return Some(Refusal(value.code, value.field));
      }
      var data := Typed(value.value);
      if data.symbol !in instruments {
        return Some(Refusal("instrument_unverified", "symbol"));
      }
      var reached := LimitReached(data.symbol);
      if reached {
        return Some(Refusal("stock_limit", "symbol"));
      }
      NewPlanPasses(View(), id, data);
      plans := plans + [Held(Plan(id, 1, data), true)];
      error := None;
    }

    method CheckGuard(id: string, revision: nat) returns (error: Option<Refusal>, at: nat)
      ensures error == None <==> Guard(View(), id, revision) == None
      ensures error.Some? ==> Guard(View(), id, revision) == Some((error.value.code, error.value.field))
      ensures error == None ==> FindPlan(plans, id) == Some(at) && at < |plans| && plans[at].plan.revision == revision && plans[at].active
    {
      at := 0;
      var found := Locate(id);
      if found.None? {
        return Some(Refusal("not_found", "body")), 0;
      }
      at := found.value;
      if plans[at].plan.revision != revision {
        return Some(Refusal("revision_conflict", "revision")), at;
      }
      if !plans[at].active {
        return Some(Refusal("plan_closed", "body")), at;
      }
      error := None;
    }

    method UpdatePlan(id: string, revision: nat, patch: Fields) returns (error: Option<Refusal>)
      requires Valid()
      modifies this`plans
      ensures Applies(old(View()), Portfolio.UpdatePlan(old(View()), id, revision, patch), View(), error)
      ensures Valid()
      ensures OthersStay(old(plans), plans, id)
      ensures error == None ==> Guard(View(), id, revision) == Some(("revision_conflict", "revision")) && Guard(View(), id, revision + 1) == None
    {
      UpdateKeeps(View(), id, revision, patch);
      var refused, at := CheckGuard(id, revision);
      if refused.Some? {
        return refused;
      }
      var data := plans[at].plan.data;
      var value := ValidatePlan(Over(Encode(data), patch));
      if value.Fault? {
        return Some(Refusal(value.code, value.field));
      }
      var updated := Typed(value.value);
      if updated.symbol != data.symbol {
        return Some(Refusal("symbol_immutable", "symbol"));
      }
      PlanReplaced(View(), at, Held(Plan(id, revision + 1, updated), true));
      plans := plans[at := Held(Plan(id, revision + 1, updated), true)];
      error := None;
    }

    method ClosePlan(id: string, revision: nat) returns (error: Option<Refusal>)
      requires Valid()
      modifies this`plans
      ensures Applies(old(View()), Portfolio.ClosePlan(old(View()), id, revision), View(), error)
      ensures Valid()
      ensures OthersStay(old(plans), plans, id)
      ensures error == None ==> forall r: nat :: Guard(View(), id, r).Some?
    {
      CloseKeeps(View(), id, revision);
      var refused, at := CheckGuard(id, revision);
      if refused.Some? {
        return refused;
      }
      PlanReplaced(View(), at, Held(Plan(id, revision + 1, plans[at].plan.data), false));
      plans := plans[at := Held(Plan(id, revision + 1, plans[at].plan.data), false)];
      error := None;
    }

    method UpdateSettings(raw: SettingsPatch) returns (error: Option<Refusal>)
      requires Valid()
      modifies this`automatic, this`limit
      ensures Applies(old(View()), Portfolio.UpdateSettings(old(View()), raw), View(), error)
      ensures Valid()
      ensures error.Some? ==> automatic == old(automatic) && limit == old(limit)
    {
      UpdateSettingsKeeps(View(), raw);
      if Portfolio.UpdateSettings(View(), raw).Fine? && Portfolio.UpdateSettings(View(), raw).value.limit.Some? {
        LimitIsComparable(View(), raw);
      }
      if raw.others != {} {
        return Some(Refusal("invalid_fields", "body"));
      }
      var flag := if raw.automatic.Some? then raw.automatic.value else Bool(automatic);
      var value := if raw.limit.Some? then raw.limit.value else Get(Nullable(limit));
      if !flag.Bool? {
        return Some(Refusal("invalid_boolean", "automatic"));
      }
      var kept: Option<string> := None;
      if value != Null {
        kept := Amount(value);
        if kept.None? {
          return Some(Refusal("invalid_decimal", "concentration_limit"));
        }
        if Value(Number(kept.value)) > 100.0 {
          return Some(Refusal("invalid_threshold", "concentration_limit"));
        }
      }
      automatic, limit := flag.b, kept;
      error := None;
    }

    method AnyIsPending() returns (pending: bool)
      ensures pending == AnyPending(checks)
    {
      var i := 0;
      while i < |checks|
        invariant 0 <= i <= |checks|
        invariant forall j :: 0 <= j < i ==> !Pending(checks[j])
      {
        if Pending(checks[i]) {
          return true;
        }
        i := i + 1;
      }
      pending := false;
    }

    method EnqueueManual(now: Moment)
      requires Valid()
      modifies this`checks
      ensures View() == Portfolio.EnqueueManual(old(View()), now)
      ensures Valid()
      ensures EndedStay(old(checks), checks) && AnyPending(checks)
      ensures old(AnyPending(checks)) ==> checks == old(checks)
    {
      var pending := AnyIsPending();
      if !pending {
        checks := checks + [NewCheck(Manual, None, 0, now)];
        assert Pending(checks[|checks| - 1]);
      }
    }

    method EnqueueAutomatic(day: string, attempt: nat, now: Moment)
      requires Valid()
      modifies this`checks
      ensures View() == Portfolio.EnqueueAutomatic(old(View()), day, attempt, now)
      ensures Valid()
      ensures EndedStay(old(checks), checks) && (AnyPending(checks) || AttemptTaken(checks, day, attempt))
      ensures old(AnyPending(checks) || AttemptTaken(checks, day, attempt)) ==> checks == old(checks)
    {
      var pending := AnyIsPending();
      if !pending && !AttemptTaken(checks, day, attempt) {
        checks := checks + [NewCheck(Automatic, Some(day), attempt, now)];
        assert Pending(checks[|checks| - 1]);
      }
    }

    method Claim() returns (claimed: Option<nat>)
      requires Valid()
      modifies this`checks
      ensures (View(), claimed) == Portfolio.Claim(old(View()))
      ensures Valid()
      ensures EndedStay(old(checks), checks) && |checks| == |old(checks)|
      ensures claimed.None? ==> checks == old(checks) && forall i :: 0 <= i < |checks| ==> checks[i].status != Queued
      ensures claimed.Some? ==> claimed.value < |checks| && checks[claimed.value].status == Running && checks[claimed.value].plans == Active(plans)
    {
      FirstQueuedIsThere(checks);
      claimed := FirstQueued(checks);
      if claimed.Some? {
        var k := claimed.value;
        checks := checks[k := checks[k].(status := Running, plans := Active(plans))];
      }
    }

    method SetTarget(k: nat, day: string)
      requires Valid()
      modifies this`checks
      ensures View() == Portfolio.SetTarget(old(View()), k, day)
      ensures Valid()
      ensures EndedStay(old(checks), checks) && |checks| == |old(checks)|
      ensures forall i :: 0 <= i < |checks| && i != k ==> checks[i] == old(checks[i])
      ensures k < |checks| ==> checks[k] == old(checks[k]).(target := checks[k].target)
    {
      if k < |checks| && checks[k].status == Running {
        checks := checks[k := checks[k].(target := Some(day))];
      }
    }

    method Complete(k: nat, results: seq<Reading>, status: Status) returns (error: Option<Refusal>)
      requires Valid()
      modifies this`checks
      ensures Applies(old(View()), Portfolio.Complete(old(View()), k, results, status), View(), error)
      ensures Valid()
      ensures EndedStay(old(checks), checks) && |checks| == |old(checks)|
      ensures error == None ==> k < |checks| && checks[k].results == results && checks[k].plans == old(checks[k].plans) && !AnyPending(checks)
    {
      if status != Completed && status != Partial && status != Failed {
        return Some(Refusal("invalid_check_status", "body"));
      }
      if k >= |checks| || checks[k].status != Running {
        return Some(Refusal("check_not_running", "body"));
      }
      checks := checks[k := checks[k].(status := status, results := results)];
      error := None;
    }

    method Fail(k: nat, code: string)
      requires Valid()
      modifies this`checks
      ensures View() == Portfolio.Fail(old(View()), k, code)
      ensures Valid()
      ensures EndedStay(old(checks), checks) && |checks| == |old(checks)|
      ensures k < |checks| ==> checks[k].status != Running && checks[k].results == old(checks[k].results)
      ensures old(k < |checks| && checks[k].status == Running) ==> !AnyPending(checks)
    {
      if k < |checks| && checks[k].status == Running {
        checks := checks[k := checks[k].(status := Failed, error := Some(code))];
      }
    }

    /** What the restart does to the checks that were running. */
    method Recover()
      requires Valid()
      modifies this`checks
      ensures View() == Portfolio.Recover(old(View()))
      ensures Valid()
      ensures EndedStay(old(checks), checks) && |checks| == |old(checks)|
      ensures forall i :: 0 <= i < |checks| ==> checks[i].status != Running
    {
      var i, done := 0, checks;
      while i < |checks|
        invariant 0 <= i <= |checks| == |done|
        invariant forall j :: 0 <= j < |checks| ==> done[j] == if j < i then Recovered(checks)[j] else checks[j]
        invariant checks == old(checks)
      {
        if checks[i].status == Running {
          done := done[i := checks[i].(status := Interrupted, error := Some("interrupted"))];
        }
        i := i + 1;
      }
      assert done == Recovered(checks);
      checks := done;
    }
  }
}
