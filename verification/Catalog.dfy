/**
 The verified A-share catalog (`web/portfolio/market.py`): one guarded refresh per exchange,
 published files that failures never replace, and lookups among identities verified lately.
 Times are in seconds.
 */
module Catalog {
  import opened Wrappers
  import opened Text
  import opened Decimals

  datatype Exchange = SH | SZ | BJ

  const EXCHANGES: seq<Exchange> := [SH, SZ, BJ]

  const FRESH := 86400
  const USABLE := 7 * 86400
  const ARCHIVED := 36500 * 86400
  const RETRY := 300

  /** An item as the provider or a file gives it; the exchange is absent when it is none of the three. */
  datatype Raw = Raw(symbol: string, name: string, exchange: Option<Exchange>, currency: string, security: string)

  /** A trusted identity. */
  datatype Identity = Identity(symbol: string, name: string, exchange: Exchange, verifiedAt: int)

  datatype File = File(items: seq<Raw>, fetchedAt: int)

  datatype Roster = Roster(items: seq<Identity>, fetchedAt: int)

  function Suffix(e: Exchange): string {
    match e
    case SH => "SS"
    case SZ => "SZ"
    case BJ => "BJ"
  }

  // ---------------------------------------------------------------- validation

  predicate SymbolOn(symbol: string, e: Exchange) {
    |symbol| == 9 && AllDigits(symbol[..6]) && symbol[6..] == "." + Suffix(e)
  }

  predicate Acceptable(item: Raw, e: Exchange) {
    && item.exchange == Some(e) && SymbolOn(item.symbol, e)
    && item.currency == "CNY" && item.security == "A_SHARE" && Strip(item.name) != ""
  }

  function Trusted(item: Raw, e: Exchange, at: int): Identity {
    Identity(item.symbol, Strip(item.name), e, at)
  }

  predicate Listed(items: seq<Identity>, symbol: string) {
    exists i :: 0 <= i < |items| && items[i].symbol == symbol
  }

  /** The items so far, or nothing once one is unacceptable or repeated. */
  function Collect(items: seq<Raw>, e: Exchange, at: int): Option<seq<Identity>> {
    if items == [] then Some([])
    else
      var last := items[|items| - 1];
      match Collect(items[..|items| - 1], e, at)
      case None => None
      case Some(found) =>
        if !Acceptable(last, e) || Listed(found, last.symbol) then None else Some(found + [Trusted(last, e, at)])
  }

  /** `_validate_catalog`; nothing stands for the `ValueError`. */
  function Validated(items: seq<Raw>, e: Exchange, at: int): Option<Roster> {
    match Collect(items, e, at)
    case None => None
    case Some(found) => if found == [] then None else Some(Roster(found, at))
  }

  method ValidateCatalog(items: seq<Raw>, e: Exchange, at: int) returns (r: Option<Roster>)
    ensures r == Validated(items, e, at)
  {
    var found, i := [], 0;
    while i < |items|
      invariant 0 <= i <= |items|
      invariant Collect(items[..i], e, at) == Some(found)
    {
      assert items[..i + 1][..i] == items[..i];
      if !Acceptable(items[i], e) || Listed(found, items[i].symbol) {
        NoneStays(items, i + 1, e, at);
        return None;
      }
      found := found + [Trusted(items[i], e, at)];
      i := i + 1;
    }
    assert items[..i] == items;
    r := if found == [] then None else Some(Roster(found, at));
  }

  lemma {:induction false} NoneStays(items: seq<Raw>, i: nat, e: Exchange, at: int)
    requires i <= |items| && Collect(items[..i], e, at) == None
    ensures Collect(items, e, at) == None
    decreases |items|
  {
    if i == |items| {
      assert items[..i] == items;
    } else {
      assert items[..|items| - 1][..i] == items[..i];
      NoneStays(items[..|items| - 1], i, e, at);
    }
  }

  /** What is published: the trusted fields, as a file. */
  function AsRaw(item: Identity): Raw {
    Raw(item.symbol, item.name, Some(item.exchange), "CNY", "A_SHARE")
  }

  function AsRaws(items: seq<Identity>): (r: seq<Raw>)
    ensures |r| == |items|
  {
    if items == [] then [] else AsRaws(items[..|items| - 1]) + [AsRaw(items[|items| - 1])]
  }

  function Published(c: Roster): File {
    File(AsRaws(c.items), c.fetchedAt)
  }

  /** A validated list: acceptable, of one exchange and time, without repeats. */
  ghost predicate Clean(items: seq<Identity>, e: Exchange, at: int) {
    && (forall i :: 0 <= i < |items| ==> Acceptable(AsRaw(items[i]), e) && items[i].exchange == e && items[i].verifiedAt == at)
    && (forall i :: 0 <= i < |items| ==> Strip(items[i].name) == items[i].name)
    && (forall i, j :: 0 <= i < j < |items| ==> items[i].symbol != items[j].symbol)
  }

  lemma {:induction false} CollectIsClean(items: seq<Raw>, e: Exchange, at: int)
    ensures Collect(items, e, at).Some? ==> Clean(Collect(items, e, at).value, e, at)
  {
    if items == [] {
    } else {
      CollectIsClean(items[..|items| - 1], e, at);
      StripTwice(items[|items| - 1].name);
    }
  }

  lemma {:induction false} CollectNext(raws: seq<Raw>, raw: Raw, e: Exchange, at: int, found: seq<Identity>)
    requires Collect(raws, e, at) == Some(found) && Acceptable(raw, e) && !Listed(found, raw.symbol)
    ensures Collect(raws + [raw], e, at) == Some(found + [Trusted(raw, e, at)])
  {
    assert (raws + [raw])[..|raws|] == raws;
  }

  lemma {:induction false} CleanNext(items: seq<Identity>, item: Identity, e: Exchange, at: int)
    requires Clean(items + [item], e, at)
    ensures Clean(items, e, at) && Acceptable(AsRaw(item), e) && !Listed(items, item.symbol)
    ensures Trusted(AsRaw(item), e, at) == item
  {
    var all := items + [item];
    assert all[..|items|] == items && all[|items|] == item;
    assert forall i :: 0 <= i < |items| ==> all[i] == items[i];
  }

  lemma {:induction false} CleanCollects(items: seq<Identity>, e: Exchange, at: int)
    requires Clean(items, e, at)
    ensures Collect(AsRaws(items), e, at) == Some(items)
  {
    if items == [] {
    } else {
      var front, item := items[..|items| - 1], items[|items| - 1];
      assert items == front + [item];
      CleanNext(front, item, e, at);
      CleanCollects(front, e, at);
      CollectNext(AsRaws(front), AsRaw(item), e, at, front);
    }
  }

  /** Validation is a projection: a published catalog reads back as itself. */
  lemma {:induction false} PublishedReadsBack(items: seq<Raw>, e: Exchange, at: int)
    requires Validated(items, e, at).Some?
    ensures var c := Validated(items, e, at).value;
            Validated(Published(c).items, e, Published(c).fetchedAt) == Some(c)
  {
    CollectIsClean(items, e, at);
    CleanCollects(Validated(items, e, at).value.items, e, at);
  }

  // ---------------------------------------------------------------- the cache

  /** `_read` and `_cached_catalog`: a file not older than asked, and valid. */
  function Cached(file: Option<File>, e: Exchange, now: int, maxAge: int): Option<Roster> {
    if file.None? || !(0 <= now - file.value.fetchedAt < maxAge) then None
    else Validated(file.value.items, e, file.value.fetchedAt)
  }

  // ---------------------------------------------------------------- refreshing

  /** A call to the provider that has been started and, once ended, when. */
  datatype Call = Call(started: int, running: bool)

  /** One exchange: its file, its lock, its last attempt and error; `calls` records every upstream call. */
  datatype Desk = Desk(file: Option<File>, attempt: Option<int>, error: Option<string>, refreshing: bool, calls: seq<Call>)

  type Market = map<Exchange, Desk>

  datatype Answer = Answered(items: seq<Raw>) | Refused(code: string) | Broke

  datatype Action =
    | Begin(exchange: Exchange, now: int, read: int, stopping: bool)
    | End(exchange: Exchange, answer: Answer, now: int, writeFails: bool)

  const KNOWN_ERRORS: set<string> :=
    {"market_timeout", "market_dependency_missing", "catalog_invalid", "cache_write_failed", "market_stopped"}

  function ErrorOf(code: string): string {
    if code in KNOWN_ERRORS then code else "market_unavailable"
  }

  /** `refresh_catalog` up to the provider call; the exchange's lock is held while `refreshing`. */
  function BeginDesk(d: Desk, e: Exchange, now: int, read: int, stopping: bool): Desk {
    if d.refreshing then d
    else
      var cached := Cached(d.file, e, read, USABLE);
      if cached.Some? && now - cached.value.fetchedAt < FRESH then d
      else if stopping || (d.attempt.Some? && now - d.attempt.value < RETRY) then d
      else d.(attempt := Some(now), refreshing := true, calls := d.calls + [Call(now, true)])
  }

  function EndCall(calls: seq<Call>): seq<Call> {
    if calls == [] then [] else calls[..|calls| - 1] + [calls[|calls| - 1].(running := false)]
  }

  /** The rest: validate, publish, and record how it went. */
  function EndDesk(d: Desk, e: Exchange, answer: Answer, now: int, writeFails: bool): Desk {
    if !d.refreshing then d
    else
      var done := d.(refreshing := false, calls := EndCall(d.calls));
      match answer
      case Refused(code) => done.(error := Some(ErrorOf(code)))
      case Broke => done.(error := Some("market_unavailable"))
      case Answered(items) =>
        var value := Validated(items, e, now);
        if value.None? then done.(error := Some("catalog_invalid"))
        else if writeFails then done.(error := Some("cache_write_failed"))
        else done.(file := Some(Published(value.value)), error := None)
  }

  function Step(m: Market, a: Action): Market {
    match a
    case Begin(e, now, read, stopping) => if e in m then m[e := BeginDesk(m[e], e, now, read, stopping)] else m
    case End(e, answer, now, writeFails) => if e in m then m[e := EndDesk(m[e], e, answer, now, writeFails)] else m
  }

  function Run(m: Market, actions: seq<Action>): Market {
    if actions == [] then m else Step(Run(m, actions[..|actions| - 1]), actions[|actions| - 1])
  }

  /** `_migrate_catalog` for one exchange: a legacy file, split, never over an existing file. */
  function Migrated(file: Option<File>, legacy: Option<File>, e: Exchange, now: int): Option<File> {
    if file.Some? || legacy.None? || !(0 <= now - legacy.value.fetchedAt < USABLE) then file
    else
      match Validated(OfExchange(legacy.value.items, e), e, legacy.value.fetchedAt)
      case None => file
      case Some(c) => Some(Published(c))
  }

  function OfExchange(items: seq<Raw>, e: Exchange): seq<Raw> {
    if items == [] then []
    else OfExchange(items[..|items| - 1], e) + (if items[|items| - 1].exchange == Some(e) then [items[|items| - 1]] else [])
  }

  // ---------------------------------------------------------------- what every run keeps

  /** Upstream calls never overlap and start at least five minutes apart. */
  ghost predicate DeskSound(d: Desk) {
    && (forall i :: 0 <= i < |d.calls| - 1 ==> !d.calls[i].running)
    && (d.refreshing <==> d.calls != [] && d.calls[|d.calls| - 1].running)
    && (forall i :: 0 < i < |d.calls| ==> d.calls[i].started - d.calls[i - 1].started >= RETRY)
    && d.attempt == (if d.calls == [] then None else Some(d.calls[|d.calls| - 1].started))
  }

  ghost predicate MarketSound(m: Market) {
    forall e :: e in m ==> DeskSound(m[e])
  }

  lemma {:induction false} BeginKeeps(d: Desk, e: Exchange, now: int, read: int, stopping: bool)
    requires DeskSound(d)
    ensures DeskSound(BeginDesk(d, e, now, read, stopping))
  {
  }

  lemma {:induction false} EndKeeps(d: Desk, e: Exchange, answer: Answer, now: int, writeFails: bool)
    requires DeskSound(d)
    ensures DeskSound(EndDesk(d, e, answer, now, writeFails))
  {
  }

  lemma {:induction false} StepKeeps(m: Market, a: Action)
    requires MarketSound(m)
    ensures MarketSound(Step(m, a))
  {
    match a {
      case Begin(e, now, read, stopping) => if e in m { BeginKeeps(m[e], e, now, read, stopping); }
      case End(e, answer, now, writeFails) => if e in m { EndKeeps(m[e], e, answer, now, writeFails); }
    }
  }

  /** For every interleaving of refreshes and every clock. */
  lemma {:induction false} RunKeeps(m: Market, actions: seq<Action>)
    requires MarketSound(m)
    ensures MarketSound(Run(m, actions))
  {
    if actions == [] {
    } else {
      RunKeeps(m, actions[..|actions| - 1]);
      StepKeeps(Run(m, actions[..|actions| - 1]), actions[|actions| - 1]);
    }
  }

  /** Refreshing one exchange changes nothing of another. */
  lemma {:induction false} ExchangesAreIndependent(m: Market, a: Action, other: Exchange)
    requires other != a.exchange
    ensures other in Step(m, a) <==> other in m
    ensures other in m ==> Step(m, a)[other] == m[other]
  {
  }

  /** The end of a refresh that brings a valid list and manages to write it. */
  predicate Replaces(m: Market, a: Action) {
    && a.End? && a.exchange in m && m[a.exchange].refreshing && a.answer.Answered? && !a.writeFails
    && Validated(a.answer.items, a.exchange, a.now).Some?
  }

  /** A file changes only by publishing a valid list, stamped with the time of its arrival. */
  lemma {:induction false} OnlyValidReplaces(m: Market, a: Action, e: Exchange)
    requires e in m
    ensures e in Step(m, a)
    ensures if Replaces(m, a) && a.exchange == e
            then Step(m, a)[e].file == Some(Published(Validated(a.answer.items, e, a.now).value))
            else Step(m, a)[e].file == m[e].file
  {
  }

  /** Restricting a run to one exchange. */
  function Only(actions: seq<Action>, e: Exchange): seq<Action> {
    if actions == [] then []
    else
      var last := actions[|actions| - 1];
      Only(actions[..|actions| - 1], e) + (if last.exchange == e then [last] else [])
  }

  lemma {:induction false} RunSnoc(m: Market, actions: seq<Action>, a: Action)
    ensures Run(m, actions + [a]) == Step(Run(m, actions), a)
  {
    assert (actions + [a])[..|actions|] == actions;
  }

  lemma {:induction false} RunHas(m: Market, actions: seq<Action>, e: Exchange)
    ensures e in Run(m, actions) <==> e in m
  {
    if actions == [] {
    } else {
      RunHas(m, actions[..|actions| - 1], e);
    }
  }

  /** Over whole runs: what becomes of an exchange depends on its own refreshes alone. */
  lemma {:induction false} OwnRefreshesDecide(m: Market, actions: seq<Action>, e: Exchange)
    requires e in m
    ensures e in Run(m, actions) && e in Run(m, Only(actions, e))
    ensures Run(m, actions)[e] == Run(m, Only(actions, e))[e]
  {
    RunHas(m, actions, e);
    RunHas(m, Only(actions, e), e);
    if actions == [] {
    } else {
      var front, a := actions[..|actions| - 1], actions[|actions| - 1];
      OwnRefreshesDecide(m, front, e);
      RunHas(m, front, e);
      if a.exchange == e {
        RunSnoc(m, Only(front, e), a);
      } else {
        ExchangesAreIndependent(Run(m, front), a, e);
        assert Only(front, e) + [] == Only(front, e);
      }
    }
  }

  /** Migration keeps every existing file and the legacy file's own time. */
  lemma {:induction false} MigrationKeepsTime(file: Option<File>, legacy: Option<File>, e: Exchange, now: int)
    ensures file.Some? ==> Migrated(file, legacy, e, now) == file
    ensures file.None? && Migrated(file, legacy, e, now).Some? ==>
              legacy.Some? && Migrated(file, legacy, e, now).value.fetchedAt == legacy.value.fetchedAt
  {
  }
}
