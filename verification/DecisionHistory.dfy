/**
 The decision log over whole histories: storing, updating one by one, updating in a batch and
 rotating, on the file and on the records it stands for.
 */
module DecisionHistory {
  import opened Wrappers
  import opened Text
  import opened DecisionLog
  import opened DecisionRecords

  // ---------------------------------------------------------------- batch updates

  function SettleAll(recs: seq<Record>, us: seq<Update>): seq<Record>
    decreases |us|
  {
    if us == [] then recs else SettleAll(SettleFirst(recs, us[0]), us[1..])
  }

  function FirstHit(r: Record, us: seq<Update>): Option<nat> {
    if us == [] then None
    else if Hits(r, us[0]) then Some(0)
    else
      match FirstHit(r, us[1..])
      case None => None
      case Some(k) => Some(k + 1)
  }

  /** The batch loop on records: each takes the first update it matches and uses it up. */
  function SettleEach(recs: seq<Record>, us: seq<Update>): seq<Record> {
    if recs == [] then []
    else
      match FirstHit(recs[0], us)
      case None => [recs[0]] + SettleEach(recs[1..], us)
      case Some(k) =>
        if k < |us| then [Settle(recs[0], us[k])] + SettleEach(recs[1..], us[..k] + us[k + 1..])
        else [recs[0]] + SettleEach(recs[1..], us)
  }

  ghost predicate AllGood(us: seq<Update>) {
    forall i :: 0 <= i < |us| ==> GoodUpdate(us[i])
  }

  lemma {:induction false} FirstMatchHits(r: Record, us: seq<Update>)
    requires WellFormed(r) && AllGood(us)
    ensures FirstMatch(BlockOf(r), us) == FirstHit(r, us)
    ensures FirstHit(r, us).Some? ==> FirstHit(r, us).value < |us| && Hits(r, us[FirstHit(r, us).value])
  {
    if us == [] {
    } else {
      MatchesHits(r, us[0]);
      FirstMatchHits(r, us[1..]);
    }
  }

  lemma {:induction false} EmptyMatchesNone(us: seq<Update>)
    ensures FirstMatch("", us) == None
  {
    if us == [] {
    } else {
      EmptyBlock(us[0]);
      EmptyMatchesNone(us[1..]);
    }
  }

  lemma {:induction false} UpdateAllMiss(b: string, rest: seq<string>, us: seq<Update>)
    requires FirstMatch(b, us) == None
    ensures UpdateAll([b] + rest, us) == [b] + UpdateAll(rest, us)
  {
    assert ([b] + rest)[1..] == rest;
  }

  lemma {:induction false} UpdateAllMatch(b: string, rest: seq<string>, us: seq<Update>, k: nat)
    requires FirstMatch(b, us) == Some(k) && k < |us|
    ensures UpdateAll([b] + rest, us) == [ResolvedBlock(b, us[k])] + UpdateAll(rest, us[..k] + us[k + 1..])
  {
    assert ([b] + rest)[1..] == rest;
  }

  lemma {:induction false} SettleEachCons(r: Record, rest: seq<Record>, us: seq<Update>)
    ensures FirstHit(r, us) == None ==> SettleEach([r] + rest, us) == [r] + SettleEach(rest, us)
    ensures forall k: nat :: FirstHit(r, us) == Some(k) && k < |us| ==>
              SettleEach([r] + rest, us) == [Settle(r, us[k])] + SettleEach(rest, us[..k] + us[k + 1..])
  {
    assert ([r] + rest)[1..] == rest;
  }

  /** The batch loop on a file's blocks is the batch loop on its records. */
  ghost predicate Settles(recs: seq<Record>, us: seq<Update>) {
    UpdateAll(Blocks(recs) + [""], us) == Blocks(SettleEach(recs, us)) + [""] && AllWell(SettleEach(recs, us))
  }

  lemma {:induction false} SettlesMiss(r: Record, rest: seq<Record>, us: seq<Update>)
    requires WellFormed(r) && AllGood(us) && FirstHit(r, us) == None && Settles(rest, us)
    ensures Settles([r] + rest, us)
  {
    FirstMatchHits(r, us);
    BlocksOf(r, rest);
    SettleEachCons(r, rest, us);
    UpdateAllMiss(BlockOf(r), Blocks(rest) + [""], us);
    BlocksOf(r, SettleEach(rest, us));
    WellCons(r, SettleEach(rest, us));
  }

  lemma {:induction false} SettlesHit(r: Record, rest: seq<Record>, us: seq<Update>, k: nat, left: seq<Update>)
    requires WellFormed(r) && AllGood(us) && FirstHit(r, us) == Some(k) && k < |us|
    requires left == us[..k] + us[k + 1..] && Settles(rest, left)
    ensures Settles([r] + rest, us)
  {
    FirstMatchHits(r, us);
    BlocksOf(r, rest);
    SettleEachCons(r, rest, us);
    UpdateAllMatch(BlockOf(r), Blocks(rest) + [""], us, k);
    SettlePrints(r, us[k]);
    BlocksOf(Settle(r, us[k]), SettleEach(rest, left));
    WellCons(Settle(r, us[k]), SettleEach(rest, left));
  }

  lemma {:induction false} UpdateAllSettles(recs: seq<Record>, us: seq<Update>)
    requires AllWell(recs) && AllGood(us)
    ensures Settles(recs, us)
    decreases |recs|
  {
    if recs == [] {
      EmptyMatchesNone(us);
    } else {
      var r, rest := recs[0], recs[1..];
      assert recs == [r] + rest;
      HitIndex(r, us);
      match FirstHit(r, us) {
        case None =>
          UpdateAllSettles(rest, us);
          SettlesMiss(r, rest, us);
        case Some(k) =>
          UpdateAllSettles(rest, us[..k] + us[k + 1..]);
          SettlesHit(r, rest, us, k, us[..k] + us[k + 1..]);
      }
    }
  }

  lemma {:induction false} SettleSkips(r: Record, rest: seq<Record>, us: seq<Update>)
    requires FirstHit(r, us) == None
    ensures SettleAll([r] + rest, us) == [r] + SettleAll(rest, us)
    decreases |us|
  {
    if us == [] {
    } else {
      assert ([r] + rest)[1..] == rest;
      SettleSkips(r, SettleFirst(rest, us[0]), us[1..]);
    }
  }

  lemma {:induction false} SettledHitsNone(r: Record, us: seq<Update>)
    requires r.outcome.Some?
    ensures FirstHit(r, us) == None
  {
    if us == [] {
    } else {
      SettledHitsNone(r, us[1..]);
    }
  }

  lemma {:induction false} SettleTakes(r: Record, rest: seq<Record>, us: seq<Update>, k: nat)
    requires FirstHit(r, us) == Some(k) && k < |us|
    ensures SettleAll([r] + rest, us) == [Settle(r, us[k])] + SettleAll(rest, us[..k] + us[k + 1..])
    decreases |us|
  {
    assert ([r] + rest)[1..] == rest;
    if Hits(r, us[0]) {
      SettledHitsNone(Settle(r, us[0]), us[1..]);
      SettleSkips(Settle(r, us[0]), rest, us[1..]);
      assert us[..0] + us[1..] == us[1..];
    } else {
      SettleTakes(r, SettleFirst(rest, us[0]), us[1..], k - 1);
      var left := us[..k] + us[k + 1..];
      assert left[0] == us[0] && left[1..] == us[1..][..k - 1] + us[1..][k..];
    }
  }

  /** Taking the updates block by block settles what taking them one after another settles. */
  lemma {:induction false} EachIsAll(recs: seq<Record>, us: seq<Update>)
    ensures SettleEach(recs, us) == SettleAll(recs, us)
    decreases |recs|
  {
    if recs == [] {
      NothingToSettle(us);
    } else {
      var r, rest := recs[0], recs[1..];
      assert recs == [r] + rest;
      HitIndex(r, us);
      match FirstHit(r, us) {
        case None =>
          SettleSkips(r, rest, us);
          EachIsAll(rest, us);
        case Some(k) =>
          SettleTakes(r, rest, us, k);
          EachIsAll(rest, us[..k] + us[k + 1..]);
      }
    }
  }

  lemma {:induction false} HitIndex(r: Record, us: seq<Update>)
    ensures FirstHit(r, us).Some? ==> FirstHit(r, us).value < |us|
  {
    if us == [] {
    } else {
      HitIndex(r, us[1..]);
    }
  }

  lemma {:induction false} NothingToSettle(us: seq<Update>)
    ensures SettleAll([], us) == []
    decreases |us|
  {
    if us == [] {
    } else {
      NothingToSettle(us[1..]);
    }
  }

  // ---------------------------------------------------------------- rotation

  lemma {:induction false} ForgetCounts(recs: seq<Record>, n: nat)
    requires n <= Count(recs)
    ensures Count(Forget(recs, n)) == Count(recs) - n
    ensures n == 0 ==> Forget(recs, n) == recs
    decreases recs
  {
    if recs == [] {
    } else {
      if recs[0].outcome.Some? && n > 0 {
        ForgetCounts(recs[1..], n - 1);
      } else {
        ForgetCounts(recs[1..], n);
        assert ([recs[0]] + Forget(recs[1..], n))[1..] == Forget(recs[1..], n);
      }
    }
  }

  lemma {:induction false} SettleCounts(recs: seq<Record>, u: Update)
    ensures AnyHit(recs, u) ==> Count(SettleFirst(recs, u)) == Count(recs) + 1
    ensures !AnyHit(recs, u) ==> SettleFirst(recs, u) == recs
  {
    if recs == [] {
    } else {
      assert recs == [recs[0]] + recs[1..];
      AnyHitCons(recs[0], recs[1..], u);
      SettleCounts(recs[1..], u);
      assert ([recs[0]] + SettleFirst(recs[1..], u))[1..] == SettleFirst(recs[1..], u);
      assert ([Settle(recs[0], u)] + recs[1..])[1..] == recs[1..];
    }
  }

  lemma {:induction false} ForgetKeepsHits(recs: seq<Record>, n: nat, u: Update)
    ensures AnyHit(Forget(recs, n), u) <==> AnyHit(recs, u)
    decreases recs
  {
    if recs == [] {
    } else {
      var r, rest := recs[0], recs[1..];
      assert recs == [r] + rest;
      AnyHitCons(r, rest, u);
      if r.outcome.Some? && n > 0 {
        ForgetKeepsHits(rest, n - 1, u);
      } else {
        ForgetKeepsHits(rest, n, u);
        AnyHitCons(r, Forget(rest, n), u);
      }
    }
  }

  /** Forgetting the oldest before or after settling one more pending record is the same. */
  lemma {:induction false} ForgetAroundSettle(recs: seq<Record>, u: Update, n: nat)
    requires AnyHit(recs, u) && n <= Count(recs)
    ensures Forget(SettleFirst(Forget(recs, n), u), 1) == Forget(SettleFirst(recs, u), n + 1)
    decreases recs
  {
    var r, rest := recs[0], recs[1..];
    assert recs == [r] + rest;
    AnyHitCons(r, rest, u);
    if r.outcome.Some? {
      assert SettleFirst(recs, u) == [r] + SettleFirst(rest, u);
      assert ([r] + SettleFirst(rest, u))[1..] == SettleFirst(rest, u);
      if n > 0 {
        ForgetAroundSettle(rest, u, n - 1);
      } else {
        ForgetCounts(recs, 0);
      }
    } else if Hits(r, u) {
      assert ([r] + Forget(rest, n))[1..] == Forget(rest, n);
      assert ([Settle(r, u)] + Forget(rest, n))[1..] == Forget(rest, n);
      assert ([Settle(r, u)] + rest)[1..] == rest;
      ForgetCounts(rest, n);
      ForgetCounts(Forget(rest, n), 0);
    } else {
      ForgetAroundSettle(rest, u, n);
      assert ([r] + Forget(rest, n))[1..] == Forget(rest, n);
      assert ([r] + SettleFirst(rest, u))[1..] == SettleFirst(rest, u);
      assert ([r] + SettleFirst(Forget(rest, n), u))[1..] == SettleFirst(Forget(rest, n), u);
    }
  }

  lemma {:induction false} RotatedTwice(recs: seq<Record>, cap: Option<int>)
    ensures Rotated(Rotated(recs, cap), cap) == Rotated(recs, cap)
  {
    if cap.Some? && Count(recs) > cap.value > 0 {
      ForgetCounts(recs, Count(recs) - cap.value);
    }
  }

  lemma {:induction false} RotateAroundSettle(recs: seq<Record>, u: Update, cap: Option<int>)
    ensures Rotated(SettleFirst(Rotated(recs, cap), u), cap) == Rotated(SettleFirst(recs, u), cap)
  {
    if cap.Some? && Count(recs) > cap.value > 0 {
      var n := Count(recs) - cap.value;
      ForgetCounts(recs, n);
      ForgetKeepsHits(recs, n, u);
      SettleCounts(recs, u);
      SettleCounts(Forget(recs, n), u);
      if AnyHit(recs, u) {
        ForgetAroundSettle(recs, u, n);
      } else {
        RotatedTwice(recs, cap);
      }
    }
  }

  lemma {:induction false} RotateAroundAll(recs: seq<Record>, us: seq<Update>, cap: Option<int>)
    ensures Rotated(SettleAll(Rotated(recs, cap), us), cap) == Rotated(SettleAll(recs, us), cap)
    decreases |us|
  {
    if us == [] {
      RotatedTwice(recs, cap);
    } else {
      RotateAroundAll(SettleFirst(Rotated(recs, cap), us[0]), us[1..], cap);
      RotateAroundAll(SettleFirst(recs, us[0]), us[1..], cap);
      RotateAroundSettle(recs, us[0], cap);
    }
  }

  function PendingOnly(recs: seq<Record>): seq<Record> {
    if recs == [] then []
    else (if recs[0].outcome.None? then [recs[0]] else []) + PendingOnly(recs[1..])
  }

  function SettledOnly(recs: seq<Record>): (r: seq<Record>)
    ensures |r| == Count(recs)
  {
    if recs == [] then []
    else (if recs[0].outcome.Some? then [recs[0]] else []) + SettledOnly(recs[1..])
  }

  lemma {:induction false} ForgetOldest(recs: seq<Record>, n: nat)
    requires n <= Count(recs)
    ensures PendingOnly(Forget(recs, n)) == PendingOnly(recs)
    ensures SettledOnly(Forget(recs, n)) == SettledOnly(recs)[n..]
    decreases recs
  {
    if recs == [] {
    } else {
      if recs[0].outcome.Some? && n > 0 {
        ForgetOldest(recs[1..], n - 1);
      } else {
        ForgetOldest(recs[1..], n);
        assert ([recs[0]] + Forget(recs[1..], n))[1..] == Forget(recs[1..], n);
        if recs[0].outcome.Some? {
          assert n == 0 && SettledOnly(recs[1..])[0..] == SettledOnly(recs[1..]);
        }
      }
    }
  }

  /** Rotation drops no pending record and keeps exactly the newest `cap` settled ones. */
  lemma {:induction false} RotationKeepsNewest(recs: seq<Record>, cap: int)
    requires cap > 0
    ensures var kept := Rotated(recs, Some(cap));
            var drop := if Count(recs) > cap then Count(recs) - cap else 0;
            PendingOnly(kept) == PendingOnly(recs) && SettledOnly(kept) == SettledOnly(recs)[drop..]
  {
    if Count(recs) > cap {
      ForgetOldest(recs, Count(recs) - cap);
    }
  }

  // ---------------------------------------------------------------- one by one, and in one batch

  function Stepwise(recs: seq<Record>, us: seq<Update>, cap: Option<int>): seq<Record>
    decreases |us|
  {
    if us == [] then recs
    else Stepwise(if AnyHit(recs, us[0]) then Rotated(SettleFirst(recs, us[0]), cap) else recs, us[1..], cap)
  }

  predicate SomeHit(recs: seq<Record>, us: seq<Update>) {
    exists i :: 0 <= i < |us| && AnyHit(recs, us[i])
  }

  lemma {:induction false} StepwiseIsAll(recs: seq<Record>, us: seq<Update>, cap: Option<int>)
    ensures Stepwise(recs, us, cap) == if SomeHit(recs, us) then Rotated(SettleAll(recs, us), cap) else recs
    ensures !SomeHit(recs, us) ==> SettleAll(recs, us) == recs
    decreases |us|
  {
    if us == [] {
    } else {
      var u, rest := us[0], us[1..];
      assert us == [u] + rest;
      SettleCounts(recs, u);
      assert SomeHit(recs, us) <==> AnyHit(recs, u) || SomeHit(recs, rest) by {
        assert forall i :: 0 <= i < |rest| ==> rest[i] == us[i + 1];
        assert forall i :: 1 <= i < |us| ==> us[i] == rest[i - 1];
      }
      if AnyHit(recs, u) {
        var next := Rotated(SettleFirst(recs, u), cap);
        StepwiseIsAll(next, rest, cap);
        RotatedTwice(SettleFirst(recs, u), cap);
        RotateAroundAll(SettleFirst(recs, u), rest, cap);
      } else {
        StepwiseIsAll(recs, rest, cap);
      }
    }
  }

  lemma {:induction false} OneByOneRendered(recs: seq<Record>, us: seq<Update>, cap: Option<int>)
    requires AllWell(recs) && AllGood(us)
    ensures OneByOne(Render(recs), us, cap) == Render(Stepwise(recs, us, cap)) && AllWell(Stepwise(recs, us, cap))
    decreases |us|
  {
    if us == [] {
    } else {
      UpdatedRendered(recs, us[0], cap);
      OneByOneRendered(if AnyHit(recs, us[0]) then Rotated(SettleFirst(recs, us[0]), cap) else recs, us[1..], cap);
    }
  }

  predicate DistinctKeys(us: seq<Update>) {
    forall i, j :: 0 <= i < j < |us| ==> us[i].date != us[j].date || us[i].ticker != us[j].ticker
  }

  lemma {:induction false} EnterFresh(d: seq<Update>, u: Update)
    requires forall i :: 0 <= i < |d| ==> d[i].date != u.date || d[i].ticker != u.ticker
    ensures Enter(d, u) == d + [u]
  {
    if d == [] {
    } else {
      EnterFresh(d[1..], u);
    }
  }

  /** A batch whose keys are distinct already is its own dictionary. */
  lemma {:induction false} DistinctKeyed(us: seq<Update>)
    requires DistinctKeys(us)
    ensures Keyed(us) == us
  {
    if us == [] {
    } else {
      DistinctKeyed(us[..|us| - 1]);
      EnterFresh(us[..|us| - 1], us[|us| - 1]);
    }
  }

  lemma {:induction false} EnterKeeps(d: seq<Update>, u: Update)
    requires DistinctKeys(d) && AllGood(d) && GoodUpdate(u)
    ensures DistinctKeys(Enter(d, u)) && AllGood(Enter(d, u)) && Enter(d, u) != []
    ensures forall w :: w in Enter(d, u) ==> w == u || w in d
  {
    if d == [] || (d[0].date == u.date && d[0].ticker == u.ticker) {
      assert forall i :: 1 <= i < |Enter(d, u)| ==> Enter(d, u)[i] == d[i];
    } else {
      EnterKeeps(d[1..], u);
      var rest := Enter(d[1..], u);
      forall j | 0 <= j < |rest|
        ensures rest[j].date != d[0].date || rest[j].ticker != d[0].ticker
      {
        assert rest[j] in rest;
      }
    }
  }

  /** The dictionary of a batch has distinct keys. */
  lemma {:induction false} KeyedIsDistinct(us: seq<Update>)
    requires AllGood(us)
    ensures DistinctKeys(Keyed(us)) && AllGood(Keyed(us)) && (us != [] ==> Keyed(us) != [])
  {
    if us == [] {
    } else {
      KeyedIsDistinct(us[..|us| - 1]);
      EnterKeeps(Keyed(us[..|us| - 1]), us[|us| - 1]);
    }
  }

  lemma {:induction false} BatchedRendered(recs: seq<Record>, us: seq<Update>, cap: Option<int>)
    requires AllWell(recs) && AllGood(us) && us != []
    ensures Batched(Render(recs), us, cap) == Render(Rotated(SettleAll(recs, Keyed(us)), cap))
    ensures AllWell(Rotated(SettleAll(recs, Keyed(us)), cap))
  {
    KeyedIsDistinct(us);
    SplitRender(recs);
    UpdateAllSettles(recs, Keyed(us));
    EachIsAll(recs, Keyed(us));
    RotatePrints(SettleAll(recs, Keyed(us)), cap);
  }

  lemma {:induction false} RenderLength(a: seq<Record>, b: seq<Record>)
    requires AllWell(a) && AllWell(b) && Render(a) == Render(b)
    ensures |a| == |b|
  {
    SplitRender(a);
    SplitRender(b);
  }

  /**
   The batch update writes byte for byte what the updates of its dictionary would have written
   one by one, rotation included, exactly when some update matches or the file is already
   within its cap. (One by one, a file no update matches is not even rotated.)
   */
  lemma {:induction false} BatchIsOneByOne(recs: seq<Record>, us: seq<Update>, cap: Option<int>)
    requires AllWell(recs) && AllGood(us) && us != []
    ensures Batched(Render(recs), us, cap) == OneByOne(Render(recs), Keyed(us), cap) <==>
            SomeHit(recs, Keyed(us)) || cap.None? || cap.value <= 0 || Count(recs) <= cap.value
  {
    KeyedIsDistinct(us);
    BatchedRendered(recs, us, cap);
    OneByOneRendered(recs, Keyed(us), cap);
    StepwiseIsAll(recs, Keyed(us), cap);
    RotationShows(recs, cap);
  }

  lemma {:induction false} FewerRenderApart(a: seq<Record>, b: seq<Record>)
    requires AllWell(a) && AllWell(b) && |a| != |b|
    ensures Render(a) != Render(b)
  {
    if Render(a) == Render(b) {
      RenderLength(a, b);
    }
  }

  lemma {:induction false} RotatedIsShorter(recs: seq<Record>, cap: Option<int>)
    requires AllWell(recs) && cap.Some? && Count(recs) > cap.value > 0
    ensures AllWell(Rotated(recs, cap)) && |Rotated(recs, cap)| < |recs|
  {
    ForgetShortens(recs, Count(recs) - cap.value);
    ForgetKeepsWell(recs, Count(recs) - cap.value);
  }

  /** Rotation changes the file exactly when there is something to drop. */
  lemma {:induction false} RotationShows(recs: seq<Record>, cap: Option<int>)
    requires AllWell(recs)
    ensures Render(Rotated(recs, cap)) == Render(recs) <==> cap.None? || cap.value <= 0 || Count(recs) <= cap.value
  {
    if cap.Some? && Count(recs) > cap.value > 0 {
      RotatedIsShorter(recs, cap);
      FewerRenderApart(Rotated(recs, cap), recs);
    }
  }

  lemma {:induction false} ForgetShortens(recs: seq<Record>, n: nat)
    requires n <= Count(recs)
    ensures |Forget(recs, n)| == |recs| - n
    decreases recs
  {
    if recs == [] {
    } else {
      ForgetShortens(recs[1..], if recs[0].outcome.Some? && n > 0 then n - 1 else n);
    }
  }

  // ---------------------------------------------------------------- storing

  predicate AnyLine(s: string, date: string, ticker: string) {
    exists i :: 0 <= i < |SplitChar(s, '\n')| && PendingFor(SplitChar(s, '\n')[i], date, ticker)
  }

  lemma {:induction false} AnyLineConcat(a: string, b: string, date: string, ticker: string)
    ensures AnyLine(a + ['\n'] + b, date, ticker) <==> AnyLine(a, date, ticker) || AnyLine(b, date, ticker)
  {
    SplitConcat(a, '\n', b);
    var x, y := SplitChar(a, '\n'), SplitChar(b, '\n');
    assert forall i :: 0 <= i < |x| ==> (x + y)[i] == x[i];
    assert forall i :: 0 <= i < |y| ==> (x + y)[|x| + i] == y[i];
  }

  predicate HasPending(recs: seq<Record>, date: string, ticker: string) {
    exists i :: 0 <= i < |recs| && recs[i].outcome.None? && recs[i].date == date && recs[i].ticker == ticker
  }

  /** Some line inside a stored decision or reflection looks like this key's pending tag. */
  predicate Forged(recs: seq<Record>, date: string, ticker: string) {
    exists i :: 0 <= i < |recs| && AnyLine(RestOf(recs[i]), date, ticker)
  }

  lemma {:induction false} BlockLineScan(r: Record, date: string, ticker: string)
    requires WellFormed(r) && Plain(date) && Plain(ticker)
    ensures AnyLine(BlockOf(r), date, ticker) <==>
            (r.outcome.None? && r.date == date && r.ticker == ticker) || AnyLine(RestOf(r), date, ticker)
  {
    WellFormedMeans(r);
    var tag := Tag(FieldsOf(r));
    FieldsArePlain(r);
    TagParses(FieldsOf(r));
    AnyLineConcat(tag, RestOf(r), date, ticker);
    assert BlockOf(r) == tag + ['\n'] + RestOf(r);
    assert SplitChar(tag, '\n') == [tag];
    PrefixReadsKey(FieldsOf(r), date, ticker);
    SuffixReadsPending(FieldsOf(r));
    assert AnyLine(tag, date, ticker) <==> PendingFor(tag, date, ticker) by {
      assert SplitChar(tag, '\n')[0] == tag;
    }
  }

  lemma {:induction false} QuietLine(line: string, date: string, ticker: string)
    requires '\n' !in line && (line == "" || line[0] != '[')
    ensures !AnyLine(line, date, ticker)
  {
    assert SplitChar(line, '\n') == [line];
    assert ("[" + date + " | " + ticker + " |")[0] == '[';
  }

  lemma {:induction false} SeparatorScan(b: string, rest: string, date: string, ticker: string)
    ensures AnyLine(b + Sep(MARK) + rest, date, ticker) <==> AnyLine(b, date, ticker) || AnyLine(rest, date, ticker)
  {
    var nl := ['\n'];
    QuietLine("", date, ticker);
    QuietLine(MARK, date, ticker);
    AnyLineConcat("", rest, date, ticker);
    AnyLineConcat(MARK, "" + nl + rest, date, ticker);
    AnyLineConcat("", MARK + nl + ("" + nl + rest), date, ticker);
    AnyLineConcat(b, "" + nl + (MARK + nl + ("" + nl + rest)), date, ticker);
    assert b + Sep(MARK) + rest == b + nl + ("" + nl + (MARK + nl + ("" + nl + rest)));
  }

  lemma {:induction false} RenderCons(r: Record, rest: seq<Record>)
    ensures Render([r] + rest) == BlockOf(r) + Sep(MARK) + Render(rest)
  {
    assert ([r] + rest)[1..] == rest;
    BlocksCons([r] + rest);
    assert ([BlockOf(r)] + (Blocks(rest) + [""]))[1..] == Blocks(rest) + [""];
  }

  lemma {:induction false} HasPendingCons(r: Record, rest: seq<Record>, date: string, ticker: string)
    ensures HasPending([r] + rest, date, ticker) <==>
            (r.outcome.None? && r.date == date && r.ticker == ticker) || HasPending(rest, date, ticker)
  {
    var all := [r] + rest;
    assert all[0] == r;
    assert forall i :: 0 <= i < |rest| ==> rest[i] == all[i + 1];
    assert forall i :: 1 <= i < |all| ==> all[i] == rest[i - 1];
  }

  lemma {:induction false} ForgedCons(r: Record, rest: seq<Record>, date: string, ticker: string)
    ensures Forged([r] + rest, date, ticker) <==> AnyLine(RestOf(r), date, ticker) || Forged(rest, date, ticker)
  {
    var all := [r] + rest;
    assert all[0] == r;
    assert forall i :: 0 <= i < |rest| ==> rest[i] == all[i + 1];
    assert forall i :: 1 <= i < |all| ==> all[i] == rest[i - 1];
  }

  lemma {:induction false} EmptyScan(date: string, ticker: string)
    ensures !AnyLine(Render([]), date, ticker)
  {
    assert Blocks([]) + [""] == [""];
    QuietLine("", date, ticker);
  }

  lemma {:induction false} RenderScan(recs: seq<Record>, date: string, ticker: string)
    requires AllWell(recs) && Plain(date) && Plain(ticker)
    ensures AnyLine(Render(recs), date, ticker) <==> HasPending(recs, date, ticker) || Forged(recs, date, ticker)
    decreases |recs|
  {
    if recs == [] {
      EmptyScan(date, ticker);
    } else {
      var r, rest := recs[0], recs[1..];
      assert recs == [r] + rest;
      RenderCons(r, rest);
      BlockLineScan(r, date, ticker);
      SeparatorScan(BlockOf(r), Render(rest), date, ticker);
      HasPendingCons(r, rest, date, ticker);
      ForgedCons(r, rest, date, ticker);
      RenderScan(rest, date, ticker);
    }
  }

  lemma {:induction false} JoinAppend(blocks: seq<string>, b: string, mark: string)
    ensures Join(blocks + [""], mark) + b + Sep(mark) == Join(blocks + [b] + [""], mark)
  {
    if blocks == [] {
      assert [] + [b] + [""] == [b, ""] && [""] == [] + [""];
      assert [b, ""][1..] == [""];
    } else {
      var x, rest := blocks[0], blocks[1..];
      JoinAppend(rest, b, mark);
      assert (blocks + [""])[1..] == rest + [""];
      assert (blocks + [b] + [""])[1..] == rest + [b] + [""];
    }
  }

  lemma {:induction false} EntryIsBlock(tag: string, decision: string)
    ensures tag + "\n\nDECISION:\n" + decision == tag + "\n" + ("\nDECISION:\n" + decision)
  {
  }

  lemma {:induction false} NewIsBlock(r: Record)
    requires r.outcome.None?
    ensures NewEntry(r.date, r.ticker, r.rating, r.decision) == BlockOf(r)
  {
    assert FieldsOf(r) == [r.date, r.ticker, r.rating, "pending"];
    EntryIsBlock(Tag(FieldsOf(r)), r.decision);
  }

  lemma {:induction false} AppendRenders(recs: seq<Record>, r: Record)
    requires r.outcome.None?
    ensures Render(recs) + NewEntry(r.date, r.ticker, r.rating, r.decision) + Sep(MARK) == Render(recs + [r])
  {
    NewIsBlock(r);
    BlocksAppend(recs, r);
    JoinAppend(Blocks(recs), BlockOf(r), MARK);
  }

  function StoredRecords(recs: seq<Record>, r: Record): seq<Record> {
    if HasPending(recs, r.date, r.ticker) || Forged(recs, r.date, r.ticker) then recs else recs + [r]
  }

  lemma {:induction false} StoredRendered(recs: seq<Record>, r: Record)
    requires AllWell(recs) && WellFormed(r) && r.outcome.None?
    ensures Stored(Render(recs), r.date, r.ticker, r.rating, r.decision) == Render(StoredRecords(recs, r))
    ensures AllWell(StoredRecords(recs, r))
  {
    WellFormedMeans(r);
    RenderScan(recs, r.date, r.ticker);
    AppendRenders(recs, r);
  }

  /**
   Storing keeps its promise (append unless that key is already pending) exactly when no line
   of a stored text poses as the key's pending tag, or the key really is pending.
   */
  lemma {:induction false} StoreMeetsItsPromise(recs: seq<Record>, r: Record)
    requires AllWell(recs) && WellFormed(r) && r.outcome.None?
    ensures var promised := if HasPending(recs, r.date, r.ticker) then recs else recs + [r];
            Stored(Render(recs), r.date, r.ticker, r.rating, r.decision) == Render(promised) <==>
            HasPending(recs, r.date, r.ticker) || !Forged(recs, r.date, r.ticker)
  {
    StoredRendered(recs, r);
    if !HasPending(recs, r.date, r.ticker) && Forged(recs, r.date, r.ticker) && Render(recs) == Render(recs + [r]) {
      RenderLength(recs, recs + [r]);
    }
  }

  /** A decision that quotes a key's pending tag on a line of its own makes that key unstorable. */
  lemma {:induction false} QuotedTagIsDropped(quoting: Record, lost: Record)
    requires WellFormed(quoting) && quoting.outcome.None? && WellFormed(lost) && lost.outcome.None?
    requires quoting.decision == Tag(FieldsOf(lost))
    ensures StoredRecords([quoting], lost) == [quoting]
  {
    WellFormedMeans(lost);
    var quote, fields := quoting.decision, FieldsOf(lost);
    FieldsArePlain(lost);
    TagParses(fields);
    PrefixReadsKey(fields, lost.date, lost.ticker);
    SuffixReadsPending(fields);
    assert PendingFor(quote, lost.date, lost.ticker);
    assert SplitChar(quote, '\n') == [quote];
    assert SplitChar(quote, '\n')[0] == quote;
    AnyLineConcat("\nDECISION:", quote, lost.date, lost.ticker);
    QuotedRest(quoting);
    assert [quoting][0] == quoting;
  }

  lemma {:induction false} QuotedRest(r: Record)
    requires r.outcome.None?
    ensures RestOf(r) == "\nDECISION:" + ['\n'] + r.decision
  {
  }

  lemma {:induction false} QuotingIsWell(lost: Record, date: string, ticker: string, rating: string)
    requires WellFormed(lost) && Plain(date) && Plain(ticker) && Plain(rating)
    requires forall i :: 0 <= i < |FieldsOf(lost)| ==> 'R' !in FieldsOf(lost)[i]
    ensures WellFormed(Record(date, ticker, rating, Tag(FieldsOf(lost)), None))
  {
    WellFormedMeans(lost);
    WellFormedMeans(Record(date, ticker, rating, Tag(FieldsOf(lost)), None));
    FieldsArePlain(lost);
    TagParses(FieldsOf(lost));
    BarsAreQuiet(FieldsOf(lost), 'R');
    TagUnmarked(FieldsOf(lost));
    Short(Tag(FieldsOf(lost)), "REFLECTION:");
  }

  lemma {:induction false} OneLetter(c: char)
    requires !Space(c) && c !in "|<\nR"
    ensures Plain([c]) && WellFormed(Record([c], [c], [c], [c], None))
  {
    WellFormedMeans(Record([c], [c], [c], [c], None));
    assert c != '|' && c != '<' && c != '\n' && c != 'R';
    Short([c], MARK);
    Short([c], "REFLECTION:");
  }

  /** One such pair: the second decision is never written although its key is not pending. */
  lemma {:induction false} QuotedTagExists() returns (quoting: Record, lost: Record)
    ensures WellFormed(quoting) && quoting.outcome.None? && WellFormed(lost) && lost.outcome.None?
    ensures !HasPending([quoting], lost.date, lost.ticker) && StoredRecords([quoting], lost) == [quoting]
  {
    lost := Record("B", "B", "B", "B", None);
    OneLetter('A');
    OneLetter('B');
    assert FieldsOf(lost) == ["B", "B", "B", "pending"];
    QuotingIsWell(lost, "A", "A", "A");
    quoting := Record("A", "A", "A", Tag(FieldsOf(lost)), None);
    QuotedTagIsDropped(quoting, lost);
    assert [quoting][0].date[0] != lost.date[0];
  }

  /** An outcome all of whose texts are the letter A. */
  function Plainest(): Outcome {
    Outcome("A", "A", "A", None, "A")
  }

  lemma {:induction false} PlainestIsSane()
    ensures Sane(Plainest()) && GoodUpdate(Update("B", "B", Plainest()))
    ensures WellFormed(Record("A", "A", "A", "A", Some(Plainest())))
  {
    OneLetter('A');
    OneLetter('B');
    Short("A", MARK);
    assert "A"[0] != "pending"[0];
    WellFormedMeans(Record("A", "A", "A", "A", None));
    WellFormedMeans(Record("A", "A", "A", "A", Some(Plainest())));
  }

  /** A batch that matches nothing still rotates two settled entries down to a cap of one; one by one nothing is written. */
  lemma {:induction false} BatchCanDiffer() returns (recs: seq<Record>, us: seq<Update>)
    ensures AllWell(recs) && AllGood(us) && us != []
    ensures Batched(Render(recs), us, Some(1)) != OneByOne(Render(recs), Keyed(us), Some(1))
  {
    var r, u := Record("A", "A", "A", "A", Some(Plainest())), Update("B", "B", Plainest());
    recs, us := [r, r], [u];
    PlainestIsSane();
    DistinctKeyed(us);
    assert recs[1..] == [r] && [r][1..] == [];
    assert Count([r]) == 1 + Count([r][1..]) == 1;
    assert Count(recs) == 1 + Count(recs[1..]) == 2;
    assert !SomeHit(recs, us);
    BatchIsOneByOne(recs, us, Some(1));
  }

  lemma {:induction false} Short(s: string, pat: string)
    requires pat != "" && pat[0] !in s
    ensures !Contains(s, pat)
  {
    forall i | 0 <= i <= |s|
      ensures !(pat <= s[i..])
    {
      if i < |s| { OnlyInRest(s, "", pat, i); assert s + "" == s; }
    }
  }

  // ---------------------------------------------------------------- whole histories

  datatype LogOp =
    | Store(entry: Record)
    | UpdateOne(update: Update)
    | UpdateBatch(updates: seq<Update>)

  ghost predicate OpOk(op: LogOp) {
    match op
    case Store(r) => WellFormed(r) && r.outcome.None?
    case UpdateOne(u) => GoodUpdate(u)
    case UpdateBatch(us) => AllGood(us)
  }

  function FileStep(text: string, op: LogOp, cap: Option<int>): string {
    match op
    case Store(r) => Stored(text, r.date, r.ticker, r.rating, r.decision)
    case UpdateOne(u) => Updated(text, u, cap)
    case UpdateBatch(us) => Batched(text, us, cap)
  }

  function RecordStep(recs: seq<Record>, op: LogOp, cap: Option<int>): seq<Record> {
    match op
    case Store(r) => StoredRecords(recs, r)
    case UpdateOne(u) => if AnyHit(recs, u) then Rotated(SettleFirst(recs, u), cap) else recs
    case UpdateBatch(us) => if us == [] then recs else Rotated(SettleAll(recs, Keyed(us)), cap)
  }

  function FileAfter(ops: seq<LogOp>, cap: Option<int>): string {
    if ops == [] then "" else FileStep(FileAfter(ops[..|ops| - 1], cap), ops[|ops| - 1], cap)
  }

  function RecordsAfter(ops: seq<LogOp>, cap: Option<int>): seq<Record> {
    if ops == [] then [] else RecordStep(RecordsAfter(ops[..|ops| - 1], cap), ops[|ops| - 1], cap)
  }

  ghost predicate OnePendingPerKey(recs: seq<Record>) {
    forall i, j :: 0 <= i < j < |recs| && recs[i].outcome.None? && recs[j].outcome.None? ==>
      recs[i].date != recs[j].date || recs[i].ticker != recs[j].ticker
  }

  /** `kept` comes from `recs` by dropping and settling only. */
  ghost predicate NoNewPending(recs: seq<Record>, kept: seq<Record>, at: seq<nat>) {
    && |at| == |kept|
    && (forall i :: 0 <= i < |at| ==> at[i] < |recs|)
    && (forall i, j :: 0 <= i < j < |at| ==> at[i] < at[j])
    && (forall i :: 0 <= i < |at| && kept[i].outcome.None? ==> kept[i] == recs[at[i]])
  }

  lemma {:induction false} ConsIndices(at: seq<nat>) returns (r: seq<nat>)
    ensures |r| == |at| + 1 && r[0] == 0 && forall i :: 0 <= i < |at| ==> r[i + 1] == at[i] + 1
  {
    r := seq(|at| + 1, i requires 0 <= i <= |at| => if i == 0 then 0 else at[i - 1] + 1);
  }

  lemma {:induction false} SettleAddsNone(recs: seq<Record>, u: Update)
    ensures |SettleFirst(recs, u)| == |recs|
    ensures forall i :: 0 <= i < |recs| && SettleFirst(recs, u)[i].outcome.None? ==> SettleFirst(recs, u)[i] == recs[i]
  {
    if recs == [] {
    } else {
      SettleAddsNone(recs[1..], u);
    }
  }

  lemma {:induction false} ForgetAddsNone(recs: seq<Record>, n: nat) returns (at: seq<nat>)
    ensures NoNewPending(recs, Forget(recs, n), at)
    decreases recs
  {
    if recs == [] {
      at := [];
    } else if recs[0].outcome.Some? && n > 0 {
      var rest := ForgetAddsNone(recs[1..], n - 1);
      at := seq(|rest|, i requires 0 <= i < |rest| => rest[i] + 1);
      LaterIndices(recs, Forget(recs[1..], n - 1), rest, at);
    } else {
      var rest := ForgetAddsNone(recs[1..], n);
      at := ConsIndices(rest);
      FirstIndices(recs, Forget(recs[1..], n), rest, at);
    }
  }

  lemma {:induction false} FirstIndices(recs: seq<Record>, kept: seq<Record>, rest: seq<nat>, at: seq<nat>)
    requires recs != [] && NoNewPending(recs[1..], kept, rest)
    requires |at| == |rest| + 1 && at[0] == 0 && forall i :: 0 <= i < |rest| ==> at[i + 1] == rest[i] + 1
    ensures NoNewPending(recs, [recs[0]] + kept, at)
  {
    assert forall i :: 1 <= i < |at| ==> at[i] == rest[i - 1] + 1;
    assert forall i :: 1 <= i < |at| ==> recs[at[i]] == recs[1..][rest[i - 1]];
    forall i, j | 0 <= i < j < |at|
      ensures at[i] < at[j]
    {
      assert i > 0 ==> rest[i - 1] < rest[j - 1];
    }
  }

  lemma {:induction false} LaterIndices(recs: seq<Record>, kept: seq<Record>, rest: seq<nat>, at: seq<nat>)
    requires recs != [] && NoNewPending(recs[1..], kept, rest)
    requires |at| == |rest| && forall i :: 0 <= i < |at| ==> at[i] == rest[i] + 1
    ensures NoNewPending(recs, kept, at)
  {
    assert forall i :: 0 <= i < |at| ==> recs[at[i]] == recs[1..][rest[i]];
    forall i, j | 0 <= i < j < |at|
      ensures at[i] < at[j]
    {
      assert rest[i] < rest[j];
    }
  }

  lemma {:induction false} StillOne(recs: seq<Record>, kept: seq<Record>, at: seq<nat>)
    requires OnePendingPerKey(recs) && NoNewPending(recs, kept, at)
    ensures OnePendingPerKey(kept)
  {
  }

  lemma {:induction false} RotatedStillOne(recs: seq<Record>, cap: Option<int>)
    requires OnePendingPerKey(recs)
    ensures OnePendingPerKey(Rotated(recs, cap))
  {
    if cap.Some? && Count(recs) > cap.value > 0 {
      var at := ForgetAddsNone(recs, Count(recs) - cap.value);
      StillOne(recs, Forget(recs, Count(recs) - cap.value), at);
    }
  }

  lemma {:induction false} SettledStillOne(recs: seq<Record>, us: seq<Update>)
    requires OnePendingPerKey(recs)
    ensures OnePendingPerKey(SettleAll(recs, us))
    decreases |us|
  {
    if us == [] {
    } else {
      SettleAddsNone(recs, us[0]);
      SettledStillOne(SettleFirst(recs, us[0]), us[1..]);
    }
  }

  /**
   After any history of stores and updates the file is the printing of its records, loading it
   returns them with trimmed texts, and no key ever has two pending entries.
   */
  lemma {:induction false} HistoryRoundTrips(ops: seq<LogOp>, cap: Option<int>)
    requires forall i :: 0 <= i < |ops| ==> OpOk(ops[i])
    ensures var recs := RecordsAfter(ops, cap);
            && AllWell(recs)
            && FileAfter(ops, cap) == Render(recs)
            && Loaded(FileAfter(ops, cap)) == Entries(recs)
            && OnePendingPerKey(recs)
  {
    if ops == [] {
      assert Blocks([]) + [""] == [""];
    } else {
      var front := ops[..|ops| - 1];
      HistoryRoundTrips(front, cap);
      HistoryStep(RecordsAfter(front, cap), ops[|ops| - 1], cap);
    }
    LoadRendered(RecordsAfter(ops, cap));
  }

  lemma {:induction false} StoreStep(recs: seq<Record>, r: Record)
    requires AllWell(recs) && WellFormed(r) && r.outcome.None? && OnePendingPerKey(recs)
    ensures Stored(Render(recs), r.date, r.ticker, r.rating, r.decision) == Render(StoredRecords(recs, r))
    ensures AllWell(StoredRecords(recs, r)) && OnePendingPerKey(StoredRecords(recs, r))
  {
    StoredRendered(recs, r);
    StoredStillOne(recs, r);
  }

  lemma {:induction false} StoredStillOne(recs: seq<Record>, r: Record)
    requires OnePendingPerKey(recs)
    ensures OnePendingPerKey(StoredRecords(recs, r))
  {
  }

  lemma {:induction false} UpdateOneStep(recs: seq<Record>, u: Update, cap: Option<int>)
    requires AllWell(recs) && GoodUpdate(u) && OnePendingPerKey(recs)
    ensures var after := RecordStep(recs, UpdateOne(u), cap);
            Updated(Render(recs), u, cap) == Render(after) && AllWell(after) && OnePendingPerKey(after)
  {
    UpdatedRendered(recs, u, cap);
    SettleAddsNone(recs, u);
    RotatedStillOne(SettleFirst(recs, u), cap);
  }

  lemma {:induction false} BatchStep(recs: seq<Record>, us: seq<Update>, cap: Option<int>)
    requires AllWell(recs) && AllGood(us) && OnePendingPerKey(recs)
    ensures var after := RecordStep(recs, UpdateBatch(us), cap);
            Batched(Render(recs), us, cap) == Render(after) && AllWell(after) && OnePendingPerKey(after)
  {
    if us == [] {
    } else {
      BatchedRendered(recs, us, cap);
      SettledStillOne(recs, Keyed(us));
      RotatedStillOne(SettleAll(recs, Keyed(us)), cap);
    }
  }

  lemma {:induction false} HistoryStep(recs: seq<Record>, op: LogOp, cap: Option<int>)
    requires AllWell(recs) && OpOk(op) && OnePendingPerKey(recs)
    ensures FileStep(Render(recs), op, cap) == Render(RecordStep(recs, op, cap))
    ensures AllWell(RecordStep(recs, op, cap)) && OnePendingPerKey(RecordStep(recs, op, cap))
  {
    match op {
      case Store(r) => StoreStep(recs, r);
      case UpdateOne(u) => UpdateOneStep(recs, u, cap);
      case UpdateBatch(us) => BatchStep(recs, us, cap);
    }
  }

  // ---------------------------------------------------------------- within the cap

  lemma {:induction false} RotatedWithinCap(recs: seq<Record>, cap: nat)
    requires cap > 0
    ensures Count(Rotated(recs, Some(cap))) <= cap
  {
    if Count(recs) > cap {
      ForgetCounts(recs, Count(recs) - cap);
    }
  }

  lemma {:induction false} PendingUncounted(recs: seq<Record>, r: Record)
    requires r.outcome.None?
    ensures Count(recs + [r]) == Count(recs)
  {
    if recs == [] {
      assert [] + [r] == [r] && [r][1..] == [];
    } else {
      assert (recs + [r])[1..] == recs[1..] + [r];
      PendingUncounted(recs[1..], r);
    }
  }

  /** Under one cap no history ever holds more settled records than that. */
  lemma {:induction false} HistoryWithinCap(ops: seq<LogOp>, cap: nat)
    requires cap > 0 && forall i :: 0 <= i < |ops| ==> OpOk(ops[i])
    ensures Count(RecordsAfter(ops, Some(cap))) <= cap
  {
    if ops == [] {
    } else {
      var recs := RecordsAfter(ops[..|ops| - 1], Some(cap));
      HistoryWithinCap(ops[..|ops| - 1], cap);
      match ops[|ops| - 1] {
        case Store(r) => PendingUncounted(recs, r);
        case UpdateOne(u) => RotatedWithinCap(SettleFirst(recs, u), cap);
        case UpdateBatch(us) => RotatedWithinCap(SettleAll(recs, Keyed(us)), cap);
      }
    }
  }

  /**
   On every file the log itself has written under a cap, a batch under that cap writes byte for
   byte what its updates would have written one by one, whether or not any of them matches.
   */
  lemma {:induction false} BatchIsOneByOneInRuns(ops: seq<LogOp>, us: seq<Update>, cap: Option<int>)
    requires AllGood(us) && forall i :: 0 <= i < |ops| ==> OpOk(ops[i])
    ensures Batched(FileAfter(ops, cap), us, cap) == OneByOne(FileAfter(ops, cap), Keyed(us), cap)
  {
    HistoryRoundTrips(ops, cap);
    if us == [] {
    } else {
      if cap.Some? && cap.value > 0 {
        HistoryWithinCap(ops, cap.value);
      }
      BatchIsOneByOne(RecordsAfter(ops, cap), us, cap);
    }
  }

  // ---------------------------------------------------------------- past context

  function About(entries: seq<Entry>, ticker: string, about: bool): seq<Entry> {
    if entries == [] then []
    else (if (entries[0].ticker == ticker) == about then [entries[0]] else []) + About(entries[1..], ticker, about)
  }

  function Reverse(entries: seq<Entry>): (r: seq<Entry>)
    ensures |r| == |entries|
  {
    if entries == [] then [] else [entries[|entries| - 1]] + Reverse(entries[..|entries| - 1])
  }

  lemma {:induction false} AboutCons(e: Entry, rest: seq<Entry>, ticker: string, about: bool)
    ensures About([e] + rest, ticker, about) ==
            (if (e.ticker == ticker) == about then [e] else []) + About(rest, ticker, about)
  {
    assert ([e] + rest)[1..] == rest;
  }

  lemma {:induction false} AboutSnoc(entries: seq<Entry>, e: Entry, ticker: string, about: bool)
    ensures About(entries + [e], ticker, about) ==
            About(entries, ticker, about) + (if (e.ticker == ticker) == about then [e] else [])
  {
    if entries == [] {
      assert [] + [e] == [e] + [];
      AboutCons(e, [], ticker, about);
    } else {
      var first, rest := entries[0], entries[1..];
      assert entries == [first] + rest;
      assert entries + [e] == [first] + (rest + [e]);
      AboutCons(first, rest, ticker, about);
      AboutCons(first, rest + [e], ticker, about);
      AboutSnoc(rest, e, ticker, about);
    }
  }

  lemma {:induction false} ReverseSnoc(kept: seq<Entry>, e: Entry)
    ensures Reverse(kept + [e]) == [e] + Reverse(kept)
  {
    assert (kept + [e])[..|kept|] == kept;
  }

  lemma {:induction false} TakeCons(e: Entry, all: seq<Entry>, n: nat)
    requires 0 < n <= |all|
    ensures ([e] + all)[..n] == [e] + all[..n - 1]
  {
  }

  /** The early-exit loop's selection is: filter, reverse, take the first `n`. */
  lemma {:induction false} NewestIsSimple(entries: seq<Entry>, ticker: string, about: bool, n: nat)
    ensures var all := Reverse(About(entries, ticker, about));
            Newest(entries, ticker, about, n) == if n < |all| then all[..n] else all
  {
    if entries != [] && n > 0 {
      var front, e := entries[..|entries| - 1], entries[|entries| - 1];
      assert entries == front + [e];
      AboutSnoc(front, e, ticker, about);
      var kept := About(front, ticker, about);
      if (e.ticker == ticker) == about {
        ReverseSnoc(kept, e);
        NewestIsSimple(front, ticker, about, n - 1);
        if n <= |kept| { TakeCons(e, Reverse(kept), n); }
      } else {
        assert kept + [] == kept;
        NewestIsSimple(front, ticker, about, n);
      }
    }
  }

  lemma {:induction false} KnownIsKnown(entries: seq<Entry>, asOf: string)
    ensures forall e :: e in Known(entries, Some(asOf)) ==>
              e in entries && !e.pending && e.resolved.Some? && e.resolved.value != "" && Leq(e.resolved.value, asOf)
  {
    if entries == [] {
    } else {
      KnownIsKnown(entries[..|entries| - 1], asOf);
    }
  }

  lemma {:induction false} NewestComesFrom(entries: seq<Entry>, ticker: string, about: bool, n: nat)
    ensures |Newest(entries, ticker, about, n)| <= n
    ensures forall e :: e in Newest(entries, ticker, about, n) ==> e in entries && (e.ticker == ticker) == about
  {
    if entries != [] && n > 0 {
      var e := entries[|entries| - 1];
      NewestComesFrom(entries[..|entries| - 1], ticker, about, if (e.ticker == ticker) == about then n - 1 else n);
    }
  }

  /** With a cutoff, no selected entry's outcome was known only later. */
  lemma {:induction false} NoHindsight(entries: seq<Entry>, ticker: string, about: bool, n: nat, asOf: string)
    ensures forall e :: e in Newest(Known(entries, Some(asOf)), ticker, about, n) ==>
              !e.pending && e.resolved.Some? && e.resolved.value != "" && Leq(e.resolved.value, asOf)
  {
    KnownIsKnown(entries, asOf);
    NewestComesFrom(Known(entries, Some(asOf)), ticker, about, n);
  }
}
