/**
 Reading the catalog (`_catalog` and `resolve` of `web/portfolio/market.py`), and the market as
 an object whose refreshes update its fields.
 */
module CatalogLookup {
  import opened Wrappers
  import opened Text
  import opened Decimals
  import opened Catalog

  datatype Standing = Fresh | Stale | Expired | Loading | Unavailable

  /** The three clock readings taken for one exchange, and whether its first refresh is still to come. */
  datatype Glance = Glance(read: int, again: int, late: int, awaited: bool)

  datatype Line = Line(cached: Option<Roster>, standing: Standing, refreshing: bool, error: Option<string>)

  function LineOf(d: Desk, e: Exchange, g: Glance): Line {
    var cached := Cached(d.file, e, g.read, USABLE);
    var refreshing := d.refreshing || (g.awaited && cached.None? && d.attempt.None?);
    var archived := if cached.Some? then cached else Cached(d.file, e, g.again, ARCHIVED);
    var standing := if cached.Some? && g.late - cached.value.fetchedAt < FRESH then Fresh
                    else if cached.Some? then Stale
                    else if archived.Some? then Expired
                    else if refreshing then Loading
                    else Unavailable;
    Line(cached, standing, refreshing, d.error)
  }

  function ItemsOf(l: Line): seq<Identity> {
    if l.cached.Some? then l.cached.value.items else []
  }

  /** One line per exchange, in their fixed order. */
  type Board = Exchange -> Line

  function AllItems(b: Board): seq<Identity> {
    ItemsOf(b(SH)) + ItemsOf(b(SZ)) + ItemsOf(b(BJ))
  }

  /** A board as it is read off the market. */
  ghost predicate Shows(b: Board, m: Market, g: Exchange -> Glance) {
    forall e: Exchange :: e in m && b(e) == LineOf(m[e], e, g(e))
  }

  /** Items are listed exactly while the exchange is fresh or stale. */
  lemma {:induction false} ListedWhileUsable(d: Desk, e: Exchange, g: Glance)
    ensures var l := LineOf(d, e, g);
            ItemsOf(l) != [] <==> l.standing == Fresh || l.standing == Stale
  {
  }

  // ---------------------------------------------------------------- resolving

  function Upper(s: string): string {
    seq(|s|, i requires 0 <= i < |s| => if 'a' <= s[i] <= 'z' then ((s[i] as int) - 32) as char else s[i])
  }

  predicate Code(s: string) {
    |s| == 6 && AllDigits(s)
  }

  predicate Query(s: string) {
    Code(s) || exists e: Exchange :: SymbolOn(s, e)
  }

  predicate Fits(item: Identity, symbol: string) {
    item.symbol == symbol || (|symbol| == 6 && symbol <= item.symbol)
  }

  function Matching(items: seq<Identity>, symbol: string): seq<Identity> {
    if items == [] then []
    else (if Fits(items[0], symbol) then [items[0]] else []) + Matching(items[1..], symbol)
  }

  predicate Relevant(e: Exchange, symbol: string) {
    |symbol| == 6 || (|symbol| > 7 && Suffix(e) == symbol[7..])
  }

  predicate Wanting(l: Line) {
    l.standing == Loading || l.standing == Expired || l.standing == Unavailable
  }

  predicate AnyWanting(b: Board, symbol: string) {
    exists e: Exchange :: Relevant(e, symbol) && Wanting(b(e))
  }

  predicate AnyRefreshing(b: Board, symbol: string) {
    exists e: Exchange :: Relevant(e, symbol) && b(e).refreshing
  }

  /** `resolve` on the stripped, upper-cased symbol. */
  function Resolved(b: Board, symbol: string): Result<Identity> {
    if !Query(symbol) then Err("unsupported_market")
    else
      var matches := Matching(AllItems(b), symbol);
      if |matches| == 1 then Ok(matches[0])
      else if AnyWanting(b, symbol) then Err(if AnyRefreshing(b, symbol) then "catalog_loading" else "catalog_unavailable")
      else Err("instrument_unverified")
  }

  function Resolve(b: Board, text: string): Result<Identity> {
    Resolved(b, Upper(Strip(text)))
  }

  // ---------------------------------------------------------------- exactly one match

  lemma {:induction false} MatchingCons(x: Identity, rest: seq<Identity>, symbol: string)
    ensures Matching([x] + rest, symbol) == (if Fits(x, symbol) then [x] else []) + Matching(rest, symbol)
  {
    assert ([x] + rest)[1..] == rest;
  }

  lemma {:induction false} MatchingConcat(a: seq<Identity>, b: seq<Identity>, symbol: string)
    ensures Matching(a + b, symbol) == Matching(a, symbol) + Matching(b, symbol)
  {
    if a == [] {
      assert a + b == b;
    } else {
      assert a + b == [a[0]] + (a[1..] + b) && a == [a[0]] + a[1..];
      MatchingConcat(a[1..], b, symbol);
      MatchingCons(a[0], a[1..] + b, symbol);
    }
  }

  lemma {:induction false} MatchingMeans(items: seq<Identity>, symbol: string)
    ensures forall x :: x in Matching(items, symbol) <==> x in items && Fits(x, symbol)
    ensures |Matching(items, symbol)| <= |items|
  {
    if items == [] {
    } else {
      MatchingMeans(items[1..], symbol);
      assert items == [items[0]] + items[1..];
    }
  }

  lemma {:induction false} CodeAndSuffix(a: string, b: string, e: Exchange)
    requires SymbolOn(a, e) && SymbolOn(b, e) && a[..6] == b[..6]
    ensures a == b
  {
    assert a == a[..6] + a[6..] && b == b[..6] + b[6..];
  }

  lemma {:induction false} DifferentItems(items: seq<Identity>, e: Exchange, at: int, i: nat, j: nat)
    requires Clean(items, e, at) && i < |items| && j < |items|
    ensures i != j ==> items[i].symbol != items[j].symbol
  {
    if j < i { assert items[j].symbol != items[i].symbol; }
  }

  /** Within one exchange a query fits at most one identity. */
  lemma {:induction false} FitsOne(items: seq<Identity>, e: Exchange, at: int, symbol: string, i: nat, j: nat)
    requires Clean(items, e, at) && i < |items| && j < |items| && Fits(items[i], symbol) && Fits(items[j], symbol)
    ensures i == j
  {
    assert Acceptable(AsRaw(items[i]), e) && Acceptable(AsRaw(items[j]), e);
    if |symbol| == 6 {
      assert items[i].symbol[..6] == symbol == items[j].symbol[..6];
      CodeAndSuffix(items[i].symbol, items[j].symbol, e);
    }
    DifferentItems(items, e, at, i, j);
  }

  lemma {:induction false} CleanTail(items: seq<Identity>, e: Exchange, at: int)
    requires Clean(items, e, at) && items != []
    ensures Clean(items[1..], e, at)
  {
  }

  lemma {:induction false} NoneFits(items: seq<Identity>, symbol: string)
    requires forall i :: 0 <= i < |items| ==> !Fits(items[i], symbol)
    ensures Matching(items, symbol) == []
  {
    if items == [] {
    } else {
      NoneFits(items[1..], symbol);
    }
  }

  lemma {:induction false} AtMostOne(items: seq<Identity>, e: Exchange, at: int, symbol: string)
    requires Clean(items, e, at)
    ensures |Matching(items, symbol)| <= 1
  {
    if items == [] {
    } else if Fits(items[0], symbol) {
      forall i | 0 <= i < |items[1..]|
        ensures !Fits(items[1..][i], symbol)
      {
        if Fits(items[i + 1], symbol) {
          FitsOne(items, e, at, symbol, 0, i + 1);
        }
      }
      NoneFits(items[1..], symbol);
    } else {
      CleanTail(items, e, at);
      AtMostOne(items[1..], e, at, symbol);
    }
  }

  /** The identities of an exchange that were verified less than seven days before the reading. */
  ghost predicate VerifiedLately(x: Identity, d: Desk, e: Exchange, now: int) {
    && d.file.Some? && 0 <= now - d.file.value.fetchedAt < USABLE
    && Validated(d.file.value.items, e, d.file.value.fetchedAt).Some?
    && x in Validated(d.file.value.items, e, d.file.value.fetchedAt).value.items
  }

  ghost predicate Hit(m: Market, g: Exchange -> Glance, e: Exchange, symbol: string) {
    e in m && exists x :: VerifiedLately(x, m[e], e, g(e).read) && Fits(x, symbol)
  }

  lemma {:induction false} HitCounts(m: Market, b: Board, g: Exchange -> Glance, e: Exchange, symbol: string)
    requires Shows(b, m, g)
    ensures |Matching(ItemsOf(b(e)), symbol)| == if Hit(m, g, e, symbol) then 1 else 0
    ensures forall x :: x in ItemsOf(b(e)) <==> VerifiedLately(x, m[e], e, g(e).read)
    ensures forall x :: x in ItemsOf(b(e)) ==> x.exchange == e && 0 <= g(e).read - x.verifiedAt < USABLE
  {
    var d, l := m[e], b(e);
    assert l == LineOf(d, e, g(e));
    if l.cached.Some? {
      var at := d.file.value.fetchedAt;
      CollectIsClean(d.file.value.items, e, at);
      AtMostOne(ItemsOf(l), e, at, symbol);
    }
    MatchingMeans(ItemsOf(l), symbol);
    if Matching(ItemsOf(l), symbol) != [] {
      assert Fits(Matching(ItemsOf(l), symbol)[0], symbol) && Matching(ItemsOf(l), symbol)[0] in ItemsOf(l);
    }
  }

  ghost predicate ExactlyOneHit(m: Market, g: Exchange -> Glance, symbol: string) {
    exists e :: Hit(m, g, e, symbol) && forall other :: other != e ==> !Hit(m, g, other, symbol)
  }

  /** The identities a query is resolved among number one for each exchange with a hit. */
  lemma {:induction false} MatchesCountHits(m: Market, b: Board, g: Exchange -> Glance, symbol: string)
    requires Shows(b, m, g)
    ensures |Matching(AllItems(b), symbol)| ==
            (if Hit(m, g, SH, symbol) then 1 else 0) + (if Hit(m, g, SZ, symbol) then 1 else 0) + (if Hit(m, g, BJ, symbol) then 1 else 0)
  {
    HitCounts(m, b, g, SH, symbol);
    HitCounts(m, b, g, SZ, symbol);
    HitCounts(m, b, g, BJ, symbol);
    var x, y, z := ItemsOf(b(SH)), ItemsOf(b(SZ)), ItemsOf(b(BJ));
    MatchingConcat(x, y, symbol);
    MatchingConcat(x + y, z, symbol);
  }

  lemma {:induction false} FoundIsVerified(m: Market, b: Board, g: Exchange -> Glance, e: Exchange, found: Identity)
    requires Shows(b, m, g) && found in ItemsOf(b(e))
    ensures found.exchange == e && e in m && VerifiedLately(found, m[e], e, g(e).read)
  {
    HitCounts(m, b, g, e, found.symbol);
  }

  lemma {:induction false} SymbolResolves(m: Market, b: Board, g: Exchange -> Glance, symbol: string)
    requires Shows(b, m, g)
    ensures Resolved(b, symbol).Ok? <==> Query(symbol) && ExactlyOneHit(m, g, symbol)
    ensures Resolved(b, symbol).Ok? ==>
              var x := Resolved(b, symbol).value;
              Fits(x, symbol) && x.exchange in m && VerifiedLately(x, m[x.exchange], x.exchange, g(x.exchange).read)
  {
    MatchesCountHits(m, b, g, symbol);
    OneOfThree(Hit(m, g, SH, symbol), Hit(m, g, SZ, symbol), Hit(m, g, BJ, symbol), m, g, symbol);
    if Resolved(b, symbol).Ok? {
      ResolvedIsFound(m, b, g, symbol);
    }
  }

  lemma {:induction false} ResolvedIsFound(m: Market, b: Board, g: Exchange -> Glance, symbol: string)
    requires Shows(b, m, g) && Resolved(b, symbol).Ok?
    ensures var x := Resolved(b, symbol).value;
            Fits(x, symbol) && x.exchange in m && VerifiedLately(x, m[x.exchange], x.exchange, g(x.exchange).read)
  {
    var found := Resolved(b, symbol).value;
    MatchingMeans(AllItems(b), symbol);
    assert found in Matching(AllItems(b), symbol);
    if found in ItemsOf(b(SH)) {
      FoundIsVerified(m, b, g, SH, found);
    } else if found in ItemsOf(b(SZ)) {
      FoundIsVerified(m, b, g, SZ, found);
    } else {
      FoundIsVerified(m, b, g, BJ, found);
    }
  }

  lemma {:induction false} OneOfThree(sh: bool, sz: bool, bj: bool, m: Market, g: Exchange -> Glance, symbol: string)
    requires sh == Hit(m, g, SH, symbol) && sz == Hit(m, g, SZ, symbol) && bj == Hit(m, g, BJ, symbol)
    ensures ExactlyOneHit(m, g, symbol) <==> (if sh then 1 else 0) + (if sz then 1 else 0) + (if bj then 1 else 0) == 1
  {
    if sh && !sz && !bj { assert forall other :: other != SH ==> !Hit(m, g, other, symbol); }
    if sz && !sh && !bj { assert forall other :: other != SZ ==> !Hit(m, g, other, symbol); }
    if bj && !sh && !sz { assert forall other :: other != BJ ==> !Hit(m, g, other, symbol); }
  }

  /**
   A query, trimmed and in upper case, succeeds exactly when one exchange, and only one, has a
   fitting identity verified within the last seven days; the answer is that identity.
   */
  lemma {:induction false} ResolvesWhenUnique(m: Market, b: Board, g: Exchange -> Glance, text: string)
    requires Shows(b, m, g)
    ensures var symbol := Upper(Strip(text));
            && (Resolve(b, text).Ok? <==> Query(symbol) && ExactlyOneHit(m, g, symbol))
            && (Resolve(b, text).Ok? ==>
                  var x := Resolve(b, text).value;
                  Fits(x, symbol) && x.exchange in m && VerifiedLately(x, m[x.exchange], x.exchange, g(x.exchange).read))
  {
    SymbolResolves(m, b, g, Upper(Strip(text)));
  }

  /** An identity is called unverified only when every exchange it could be on has a usable list. */
  lemma {:induction false} UnverifiedMeansSearched(b: Board, symbol: string)
    ensures Resolved(b, symbol) == Err("instrument_unverified") ==>
              Query(symbol) && forall e: Exchange :: Relevant(e, symbol) ==> b(e).standing == Fresh || b(e).standing == Stale
  {
    if Resolved(b, symbol) == Err("instrument_unverified") {
      assert "unsupported_market" != "instrument_unverified" by { assert "unsupported_market"[0] != "instrument_unverified"[0]; }
      forall e: Exchange | Relevant(e, symbol)
        ensures b(e).standing == Fresh || b(e).standing == Stale
      {
        assert !AnyWanting(b, symbol) by {
          assert "catalog_loading"[0] != "instrument_unverified"[0] && "catalog_unavailable"[0] != "instrument_unverified"[0];
        }
      }
    }
  }

  // ---------------------------------------------------------------- the market object

  function FileIn(files: map<Exchange, File>, e: Exchange): Option<File> {
    if e in files then Some(files[e]) else None
  }

  /** The exchanges in `done` have their part of a legacy file, the others what they had. */
  ghost predicate MigratedFor(before: map<Exchange, File>, after: map<Exchange, File>, done: seq<Exchange>, legacy: File, now: int) {
    forall e :: FileIn(after, e) == if e in done then Migrated(FileIn(before, e), Some(legacy), e, now) else FileIn(before, e)
  }

  lemma {:induction false} RoundMigrates(
      before: map<Exchange, File>, mid: map<Exchange, File>, after: map<Exchange, File>, done: seq<Exchange>, e: Exchange, legacy: File, now: int)
    requires MigratedFor(before, mid, done, legacy, now) && e !in done
    requires FileIn(after, e) == Migrated(FileIn(mid, e), Some(legacy), e, now)
    requires forall other :: other != e ==> FileIn(after, other) == FileIn(mid, other)
    ensures MigratedFor(before, after, done + [e], legacy, now)
  {
    forall x
      ensures FileIn(after, x) == if x in done + [e] then Migrated(FileIn(before, x), Some(legacy), x, now) else FileIn(before, x)
    {
      if x != e {
        assert x in done + [e] <==> x in done;
      }
    }
  }

  lemma {:induction false} EveryExchange(e: Exchange)
    ensures e in EXCHANGES
  {
    assert EXCHANGES[0] == SH && EXCHANGES[1] == SZ && EXCHANGES[2] == BJ;
  }

  lemma {:induction false} AllMigrated(before: map<Exchange, File>, after: map<Exchange, File>, legacy: File, now: int)
    requires MigratedFor(before, after, EXCHANGES, legacy, now)
    ensures forall e :: FileIn(after, e) == Migrated(FileIn(before, e), Some(legacy), e, now)
  {
    forall e
      ensures FileIn(after, e) == Migrated(FileIn(before, e), Some(legacy), e, now)
    {
      EveryExchange(e);
    }
  }

  class AShareMarket {
    var files: map<Exchange, File>
    var attempts: map<Exchange, int>
    var errors: map<Exchange, string>
    var refreshing: set<Exchange>
    ghost var calls: map<Exchange, seq<Call>>

    ghost function FileOf(e: Exchange): Option<File>
      reads this`files
    {
      FileIn(files, e)
    }

    ghost function DeskOf(e: Exchange): Desk
      reads this
    {
      Desk(FileOf(e), if e in attempts then Some(attempts[e]) else None,
           if e in errors then Some(errors[e]) else None, e in refreshing, if e in calls then calls[e] else [])
    }

    constructor ()
      ensures forall e :: DeskOf(e) == Desk(None, None, None, false, [])
    {
      files, attempts, errors, refreshing, calls := map[], map[], map[], {}, map[];
    }

    /** One exchange's part of a legacy file, unless that exchange already has a file. */
    method MigrateOne(e: Exchange, legacy: File, now: int)
      requires 0 <= now - legacy.fetchedAt < USABLE
      modifies this`files
      ensures FileOf(e) == Migrated(old(FileOf(e)), Some(legacy), e, now)
      ensures forall other :: other != e ==> FileOf(other) == old(FileOf(other))
    {
      if e !in files {
        var value := ValidateCatalog(OfExchange(legacy.items, e), e, legacy.fetchedAt);
        if value.Some? {
          files := files[e := Published(value.value)];
        }
      }
    }

    /** Splits a legacy file, exchange by exchange, without touching existing files. */
    method Migrate(legacy: Option<File>, now: int)
      modifies this`files
      ensures forall e :: DeskOf(e) == old(DeskOf(e)).(file := Migrated(old(DeskOf(e)).file, legacy, e, now))
    {
      if legacy.None? || !(0 <= now - legacy.value.fetchedAt < USABLE) {
        return;
      }
      var i := 0;
      while i < |EXCHANGES|
        invariant 0 <= i <= |EXCHANGES|
        invariant MigratedFor(old(files), files, EXCHANGES[..i], legacy.value, now)
      {
        ghost var mid := files;
        MigrateOne(EXCHANGES[i], legacy.value, now);
        assert FileOf(EXCHANGES[i]) == FileIn(files, EXCHANGES[i]);
        assert forall other :: other != EXCHANGES[i] ==> FileOf(other) == FileIn(mid, other);
        RoundMigrates(old(files), mid, files, EXCHANGES[..i], EXCHANGES[i], legacy.value, now);
        assert EXCHANGES[..i + 1] == EXCHANGES[..i] + [EXCHANGES[i]];
        i := i + 1;
      }
      assert EXCHANGES[..i] == EXCHANGES;
      AllMigrated(old(files), files, legacy.value, now);
    }

    /** The exchange's file, when it is recent enough and valid. */
    method CachedCatalog(e: Exchange, now: int) returns (cached: Option<Roster>)
      ensures cached == Cached(FileOf(e), e, now, USABLE)
    {
      if e !in files || !(0 <= now - files[e].fetchedAt < USABLE) {
        return None;
      }
      cached := ValidateCatalog(files[e].items, e, files[e].fetchedAt);
    }

    /** Up to the provider call: whether one is to be made. */
    method BeginRefresh(e: Exchange, now: int, read: int, stopping: bool) returns (call: bool)
      requires e !in refreshing
      modifies this
      ensures DeskOf(e) == BeginDesk(old(DeskOf(e)), e, now, read, stopping) && call == (e in refreshing)
      ensures forall other :: other != e ==> DeskOf(other) == old(DeskOf(other))
    {
      call := false;
      var cached := CachedCatalog(e, read);
      if cached.Some? && now - cached.value.fetchedAt < FRESH {
        return;
      }
      if stopping || (e in attempts && now - attempts[e] < RETRY) {
        return;
      }
      attempts := attempts[e := now];
      refreshing := refreshing + {e};
      calls := calls[e := (if e in calls then calls[e] else []) + [Call(now, true)]];
      call := true;
    }

    /** Validates and publishes an answer; the code says why not. */
    method Adopt(e: Exchange, items: seq<Raw>, now: int, writeFails: bool) returns (error: Option<string>)
      modifies this`files
      ensures var value := Validated(items, e, now);
              && error == (if value.None? then Some("catalog_invalid") else if writeFails then Some("cache_write_failed") else None)
              && FileOf(e) == (if error == None then Some(Published(value.value)) else old(FileOf(e)))
      ensures forall other :: other != e ==> FileOf(other) == old(FileOf(other))
    {
      var value := ValidateCatalog(items, e, now);
      if value.None? {
        return Some("catalog_invalid");
      }
      if writeFails {
        return Some("cache_write_failed");
      }
      files := files[e := Published(value.value)];
      error := None;
    }

    /** Records how the refresh went and lets the next one in. */
    method Release(e: Exchange, error: Option<string>)
      modifies this`errors, this`refreshing, this`calls
      ensures DeskOf(e) == old(DeskOf(e)).(refreshing := false, calls := EndCall(old(DeskOf(e)).calls), error := error)
      ensures forall other :: other != e ==> DeskOf(other) == old(DeskOf(other))
    {
      refreshing := refreshing - {e};
      errors := if error.Some? then errors[e := error.value] else errors - {e};
      calls := calls[e := EndCall(if e in calls then calls[e] else [])];
    }

    /** The provider's answer: validate, publish, and release. */
    method EndRefresh(e: Exchange, answer: Answer, now: int, writeFails: bool)
      requires e in refreshing
      modifies this
      ensures DeskOf(e) == EndDesk(old(DeskOf(e)), e, answer, now, writeFails)
      ensures forall other :: other != e ==> DeskOf(other) == old(DeskOf(other))
    {
      var error: Option<string>;
      match answer {
        case Answered(items) => error := Adopt(e, items, now, writeFails);
        case Refused(code) => error := Some(ErrorOf(code));
        case Broke => error := Some("market_unavailable");
      }
      Release(e, error);
    }
  }
}
