/**
 The close-check worker (`web/portfolio/worker.py`) as a state machine over the portfolio
 database: one tick is several transactions, between which requests and edits may come.
 `history` records every plan content ever stored, by identifier and revision; it only serves
 to state what a revision means.
 */
module CloseChecks {
  import opened Wrappers
  import opened Text
  import opened Plans
  import opened Valuation
  import opened Overview
  import opened Portfolio

  const MINUTE := 60000000

  /** 16:30 in microseconds since local midnight. */
  const CUTOFF: nat := 990 * MINUTE

  const HALF_HOUR := 30 * MINUTE

  const ATTEMPTS: nat := 3

  datatype Calendar = Calendar(dates: seq<string>, coveredFrom: string, coveredUntil: string)

  // ---------------------------------------------------------------- the completed date

  predicate Less(a: string, b: string) {
    Leq(a, b) && a != b
  }

  /** The session of `d` has ended at `now`. */
  predicate Ended(d: string, now: Moment) {
    Less(d, now.day) || (d == now.day && now.time >= CUTOFF)
  }

  function Candidates(dates: seq<string>, now: Moment): seq<string> {
    if dates == [] then []
    else Candidates(dates[..|dates| - 1], now) + (if Ended(dates[|dates| - 1], now) then [dates[|dates| - 1]] else [])
  }

  function Greatest(dates: seq<string>): string
    requires dates != []
  {
    if |dates| == 1 then dates[0]
    else
      var best := Greatest(dates[..|dates| - 1]);
      if Leq(dates[|dates| - 1], best) then best else dates[|dates| - 1]
  }

  predicate Covered(cal: Calendar, now: Moment) {
    !Less(now.day, cal.coveredFrom) && !(now.weekday < 5 && Less(cal.coveredUntil, now.day))
  }

  /** `completed_date`; nothing stands for the calendar being unavailable. */
  function CompletedDate(now: Moment, calendar: Option<Calendar>): Option<string> {
    if calendar.None? || !Covered(calendar.value, now) then None
    else
      var found := Candidates(calendar.value.dates, now);
      if found == [] then None else Some(Greatest(found))
  }

  // ---------------------------------------------------------------- the machine

  datatype Phase =
    | Idle
    | Looked(now: Moment, want: Option<(string, nat)>)
    | Scheduled(now: Moment)
    | Working(now: Moment, check: nat)
    | Targeted(now: Moment, check: nat, day: string)

  type History = map<(string, nat), PlanData>

  datatype State = State(db: Db, phase: Phase, history: History)

  datatype Action =
    | UpsertInstrument(symbol: string)
    | Watch(symbol: string, reason: Json)
    | Rewatch(symbol: string, reason: Json)
    | Unwatch(symbol: string)
    | Configure(settings: SettingsPatch)
    | Create(id: string, raw: Fields)
    | Update(id: string, revision: nat, patch: Fields)
    | Close(id: string, revision: nat)
    | Request(at: Moment)
    | Look(at: Moment, calendar: Option<Calendar>)
    | Enqueue
    | ClaimCheck
    | Abort
    | Target(calendar: Option<Calendar>, failure: Option<string>)
    | Finish(quotes: map<string, Option<Quote>>, failure: Option<string>)
    | Restart

  function Or(db: Db, result: Checked<Db>): Db {
    if result.Fine? then result.value else db
  }

  function Note(history: History, h: Held): History {
    history[(h.plan.id, h.plan.revision) := h.plan.data]
  }

  /** `_schedule` up to its transaction: the day and attempt number it decides to enqueue. */
  function Wanted(db: Db, now: Moment, calendar: Option<Calendar>): Option<(string, nat)> {
    var latest := Latest(db.checks);
    var attempts := Attempts(db.checks, now.day);
    if latest.Some? && Pending(latest.value) then None
    else if now.weekday >= 5 || now.time < CUTOFF || !db.automatic || Active(db.plans) == [] then None
    else if HasSuccess(db.checks, now.day) then None
    else if |attempts| >= ATTEMPTS then None
    else if attempts != [] && now.instant - attempts[|attempts| - 1].created.instant < HALF_HOUR then None
    else if CompletedDate(now, calendar).Some? && now.day !in calendar.value.dates then None
    else Some((now.day, |attempts| + 1))
  }

  function StatusOf(rs: seq<Reading>): Status {
    if CountValid(rs) == |rs| then Completed else if CountValid(rs) > 0 then Partial else Failed
  }

  function StepTarget(s: State, calendar: Option<Calendar>, failure: Option<string>): State {
    if !s.phase.Working? || s.phase.check >= |s.db.checks| then s
    else if failure.Some? then s.(db := Fail(s.db, s.phase.check, failure.value), phase := Idle)
    else
      var k, now := s.phase.check, s.phase.now;
      match CompletedDate(now, calendar)
      case None => s.(db := Fail(s.db, k, "calendar_unavailable"), phase := Idle)
      case Some(day) =>
        if s.db.checks[k].source == Automatic && s.db.checks[k].target != Some(day)
        then s.(db := Fail(s.db, k, "check_date_expired"), phase := Idle)
        else s.(db := SetTarget(s.db, k, day), phase := Targeted(now, k, day))
  }

  /** Every plan evaluated: the results are stored, and the status says how many are valid. */
  function StepComplete(s: State, k: nat, results: seq<Reading>): State {
    s.(db := Or(s.db, Complete(s.db, k, results, StatusOf(results))), phase := Idle)
  }

  function StepFinish(s: State, quotes: map<string, Option<Quote>>, failure: Option<string>): State {
    if !s.phase.Targeted? || s.phase.check >= |s.db.checks| then s
    else
      var k := s.phase.check;
      match failure
      case Some(code) => s.(db := Fail(s.db, k, code), phase := Idle)
      case None => StepComplete(s, k, Readings(s.db.checks[k].plans, quotes, s.phase.day))
  }

  function StepLook(s: State, at: Moment, want: Option<(string, nat)>): State {
    if s.phase.Idle? then s.(phase := Looked(at, want)) else s
  }

  function StepClaim(s: State): State {
    if !s.phase.Scheduled? then s
    else s.(db := Claim(s.db).0, phase := AfterClaim(s.phase.now, Claim(s.db).1))
  }

  function AfterClaim(now: Moment, claimed: Option<nat>): Phase {
    if claimed.Some? then Working(now, claimed.value) else Idle
  }

  function StepEnqueue(s: State): State {
    if !s.phase.Looked? then s
    else
      var db := match s.phase.want
                case None => s.db
                case Some((day, attempt)) => EnqueueAutomatic(s.db, day, attempt, s.phase.now);
      s.(db := db, phase := Scheduled(s.phase.now))
  }

  function StepPlan(s: State, result: Checked<Db>, id: string): State {
    if result.Fault? || FindPlan(result.value.plans, id).None? then s
    else s.(db := result.value, history := Note(s.history, Portfolio.At(result.value, id)))
  }

  /** A new row needs an identifier of its own. */
  function StepCreate(s: State, result: Checked<Db>, id: string): State {
    if FindPlan(s.db.plans, id).Some? then s else StepPlan(s, result, id)
  }

  function Step(s: State, a: Action): State {
    match a
    case UpsertInstrument(symbol) => s.(db := Upsert(s.db, symbol))
    case Watch(symbol, reason) => s.(db := Or(s.db, AddWatch(s.db, symbol, reason)))
    case Rewatch(symbol, reason) => s.(db := Or(s.db, UpdateWatch(s.db, symbol, reason)))
    case Unwatch(symbol) => s.(db := Or(s.db, RemoveWatch(s.db, symbol)))
    case Configure(settings) => s.(db := Or(s.db, UpdateSettings(s.db, settings)))
    case Create(id, raw) => StepCreate(s, CreatePlan(s.db, id, raw), id)
    case Update(id, revision, patch) => StepPlan(s, UpdatePlan(s.db, id, revision, patch), id)
    case Close(id, revision) => StepPlan(s, ClosePlan(s.db, id, revision), id)
    case Request(at) => s.(db := EnqueueManual(s.db, at))
    case Look(at, calendar) => StepLook(s, at, Wanted(s.db, at, calendar))
    case Enqueue => StepEnqueue(s)
    case ClaimCheck => StepClaim(s)
    case Abort => if s.phase.Looked? || s.phase.Scheduled? then s.(phase := Idle) else s
    case Target(calendar, failure) => StepTarget(s, calendar, failure)
    case Finish(quotes, failure) => StepFinish(s, quotes, failure)
    case Restart => s.(db := Recover(s.db), phase := Idle)
  }

  const START := State(Db({}, map[], [], [], true, None), Idle, map[])

  function Run(s: State, actions: seq<Action>): State {
    if actions == [] then s else Step(Run(s, actions[..|actions| - 1]), actions[|actions| - 1])
  }
}
