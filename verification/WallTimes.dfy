/**
 The analysts' wall-time tracker (`tradingagents/graph/analyst_execution.py`): the object, its
 loop over the plan, and why the recorded durations tile the analyst phase.
 */
module WallTimes {
  import opened Wrappers
  import opened AgentGraph

  datatype Times = Times(started: map<Key, real>, walls: map<Key, real>)

  function Started(t: Times, key: Key, now: real): Times {
    if key in t.started then t else t.(started := t.started[key := now])
  }

  function Max(a: real, b: real): real {
    if a >= b then a else b
  }

  function Completed(t: Times, key: Key, now: real): Times {
    if key in t.walls || key !in t.started then t
    else t.(walls := t.walls[key := Max(0.0, now - t.started[key])])
  }

  /** `sync_analyst_tracker_from_chunk`: the analysts with a report in the chunk, and the first without. */
  function Synced(t: Times, specs: seq<Key>, reported: set<Key>, now: real): (Times, bool) {
    if specs == [] then (t, false)
    else
      var last := specs[|specs| - 1];
      var (before, found) := Synced(t, specs[..|specs| - 1], reported, now);
      if last in reported then (Completed(Started(before, last, now), last, now), found)
      else if !found then (Started(before, last, now), true)
      else (before, true)
  }

  class AnalystWallTimeTracker {
    const specs: seq<Key>
    var started: map<Key, real>
    var walls: map<Key, real>

    ghost function View(): Times
      reads this
    {
      Times(started, walls)
    }

    constructor (specs: seq<Key>)
      ensures this.specs == specs && View() == Times(map[], map[])
    {
      this.specs := specs;
      started, walls := map[], map[];
    }

    method MarkStarted(key: Key, now: real)
      modifies this
      ensures View() == Started(old(View()), key, now)
      ensures key in started && walls == old(walls)
      ensures forall k :: k in old(started) ==> k in started && started[k] == old(started)[k]
      ensures forall k :: k in started ==> k in old(started) || (k == key && started[k] == now)
    {
      if key !in started {
        started := started[key := now];
      }
    }

    method MarkCompleted(key: Key, now: real)
      modifies this
      ensures View() == Completed(old(View()), key, now)
      ensures started == old(started) && (key in walls <==> key in old(walls) || key in started)
      ensures forall k :: k in old(walls) ==> k in walls && walls[k] == old(walls)[k]
      ensures forall k :: k in walls ==> k in old(walls) || (k == key && walls[k] >= 0.0)
      ensures key in walls && key !in old(walls) && now >= started[key] ==> started[key] + walls[key] == now
    {
      if key in walls || key !in started {
        return;
      }
      var elapsed := now - started[key];
      walls := walls[key := if elapsed < 0.0 then 0.0 else elapsed];
    }

    method Sync(reported: set<Key>, now: real)
      modifies this
      ensures View() == Synced(old(View()), specs, reported, now).0
    {
      var found, i := false, 0;
      while i < |specs|
        invariant 0 <= i <= |specs|
        invariant (View(), found) == Synced(old(View()), specs[..i], reported, now)
      {
        var key := specs[i];
        assert specs[..i + 1][..i] == specs[..i];
        if key in reported {
          MarkStarted(key, now);
          MarkCompleted(key, now);
        } else if !found {
          MarkStarted(key, now);
          found := true;
        }
        i := i + 1;
      }
      assert specs[..i] == specs;
    }
  }

  // ---------------------------------------------------------------- tiling

  /** A chunk: how many of the first analysts have reported, and when it came. */
  datatype Chunk = Chunk(reports: nat, at: real)

  function Reported(specs: seq<Key>, n: nat): set<Key> {
    set i | 0 <= i < n && i < |specs| :: specs[i]
  }

  function After(specs: seq<Key>, chunks: seq<Chunk>): Times {
    if chunks == [] then Times(map[], map[])
    else
      var c := chunks[|chunks| - 1];
      Synced(After(specs, chunks[..|chunks| - 1]), specs, Reported(specs, c.reports), c.at).0
  }

  /** Reports arrive in plan order and stay, and the clock does not go back. */
  ghost predicate Orderly(specs: seq<Key>, chunks: seq<Chunk>) {
    && (forall i :: 0 <= i < |chunks| ==> chunks[i].reports <= |specs|)
    && (forall i, j :: 0 <= i < j < |chunks| ==> chunks[i].reports <= chunks[j].reports && chunks[i].at <= chunks[j].at)
  }

  /** One analyst's times: not begun, begun, or finished. */
  datatype Row = Row(start: Option<real>, wall: Option<real>)

  function RowOf(t: Times, key: Key): Row {
    Row(if key in t.started then Some(t.started[key]) else None, if key in t.walls then Some(t.walls[key]) else None)
  }

  /** What a chunk does to one analyst: `reported`, or the first without a report, or neither. */
  function Touched(r: Row, begins: bool, finishes: bool, now: real): Row {
    var start := if r.start.Some? || !begins then r.start else Some(now);
    Row(start, if r.wall.Some? || !finishes || start.None? then r.wall else Some(Max(0.0, now - start.value)))
  }

  lemma {:induction false} SameIndex(specs: seq<Key>, i: nat, j: nat)
    requires Distinct(specs) && i < |specs| && j < |specs|
    ensures specs[i] == specs[j] ==> i == j
  {
    if j < i { assert specs[j] != specs[i]; }
  }

  lemma {:induction false} ReportedMeans(specs: seq<Key>, reports: nat, i: nat)
    requires Distinct(specs) && reports <= |specs| && i < |specs|
    ensures specs[i] in Reported(specs, reports) <==> i < reports
  {
    if specs[i] in Reported(specs, reports) {
      var j :| 0 <= j < reports && j < |specs| && specs[j] == specs[i];
      SameIndex(specs, i, j);
    }
  }

  lemma {:induction false} RowsTouched(t: Times, key: Key, other: Key, now: real)
    ensures RowOf(Started(t, key, now), other) == if other == key then Touched(RowOf(t, key), true, false, now) else RowOf(t, other)
    ensures RowOf(Completed(Started(t, key, now), key, now), other) ==
            if other == key then Touched(RowOf(t, key), true, true, now) else RowOf(t, other)
  {
  }

  /** The loop touches each analyst once, according to its place in the plan. */
  lemma {:induction false} SyncedRow(t: Times, specs: seq<Key>, reports: nat, now: real, upTo: nat, i: nat)
    requires Distinct(specs) && reports <= |specs| && upTo <= |specs| && i < |specs|
    ensures var (t', found) := Synced(t, specs[..upTo], Reported(specs, reports), now);
            && found == (upTo > reports)
            && RowOf(t', specs[i]) == Touched(RowOf(t, specs[i]), i < upTo && i <= reports, i < upTo && i < reports, now)
  {
    if upTo == 0 {
    } else {
      SyncedRow(t, specs, reports, now, upTo - 1, i);
      var front, last := specs[..upTo - 1], specs[upTo - 1];
      assert specs[..upTo][..upTo - 1] == front && specs[..upTo][upTo - 1] == last;
      ReportedMeans(specs, reports, upTo - 1);
      SameIndex(specs, i, upTo - 1);
      var before := Synced(t, front, Reported(specs, reports), now).0;
      RowsTouched(before, last, specs[i], now);
    }
  }

  function RowAt(t: Times, specs: seq<Key>, i: nat): Row
    requires i < |specs|
  {
    RowOf(t, specs[i])
  }

  /** With the first `done` analysts finished and the next begun, every duration ends where the next starts. */
  ghost predicate Tiled(t: Times, specs: seq<Key>, done: nat, now: real) {
    && (forall i: nat :: i < |specs| ==> (RowAt(t, specs, i).start.Some? <==> i <= done))
    && (forall i: nat :: i < |specs| ==> (RowAt(t, specs, i).wall.Some? <==> i < done))
    && (forall i: nat :: i < |specs| && i <= done ==> RowAt(t, specs, i).start.value <= now)
    && (forall i: nat :: i < |specs| && i < done ==>
          RowAt(t, specs, i).wall.value >= 0.0 && EndOf(t, specs, i) <= now
          && (i + 1 < |specs| ==> RowAt(t, specs, i + 1).start == Some(EndOf(t, specs, i))))
  }

  function EndOf(t: Times, specs: seq<Key>, i: nat): real
    requires i < |specs|
  {
    var r := RowAt(t, specs, i);
    if r.start.Some? && r.wall.Some? then r.start.value + r.wall.value else 0.0
  }

  /** The first chunk begins the phase. */
  lemma {:induction false} FirstTiles(specs: seq<Key>, reports: nat, now: real)
    requires Distinct(specs) && reports <= |specs|
    ensures Tiled(Synced(Times(map[], map[]), specs, Reported(specs, reports), now).0, specs, reports, now)
  {
    var t' := Synced(Times(map[], map[]), specs, Reported(specs, reports), now).0;
    assert specs[..|specs|] == specs;
    forall i: nat | i < |specs|
      ensures RowAt(t', specs, i) == Touched(Row(None, None), i <= reports, i < reports, now)
    {
      SyncedRow(Times(map[], map[]), specs, reports, now, |specs|, i);
    }
  }

  /** Every later chunk extends it. */
  lemma {:induction false} NextTiles(t: Times, specs: seq<Key>, done: nat, last: real, reports: nat, now: real)
    requires Distinct(specs) && done <= reports <= |specs| && last <= now && Tiled(t, specs, done, last)
    ensures Tiled(Synced(t, specs, Reported(specs, reports), now).0, specs, reports, now)
  {
    var t' := Synced(t, specs, Reported(specs, reports), now).0;
    assert specs[..|specs|] == specs;
    forall i: nat | i < |specs|
      ensures RowAt(t', specs, i) == Touched(RowAt(t, specs, i), i <= reports, i < reports, now)
    {
      SyncedRow(t, specs, reports, now, |specs|, i);
    }
    forall i: nat | i < |specs| && i < reports
      ensures RowAt(t', specs, i).wall.Some? && RowAt(t', specs, i).wall.value >= 0.0
      ensures EndOf(t', specs, i) == if i < done then EndOf(t, specs, i) else now
      ensures i + 1 < |specs| ==> RowAt(t', specs, i + 1).start == Some(EndOf(t', specs, i))
    {
      assert RowAt(t, specs, i).start.Some? <==> i <= done;
      assert RowAt(t, specs, i).wall.Some? <==> i < done;
      if i + 1 < |specs| {
        assert RowAt(t, specs, i + 1).start.Some? <==> i + 1 <= done;
        assert RowAt(t', specs, i + 1) == Touched(RowAt(t, specs, i + 1), i + 1 <= reports, i + 1 < reports, now);
      }
    }
  }

  /** For every orderly stream of chunks the recorded times tile the phase. */
  lemma {:induction false} AlwaysTiled(specs: seq<Key>, chunks: seq<Chunk>)
    requires Distinct(specs) && chunks != [] && Orderly(specs, chunks)
    ensures var last := chunks[|chunks| - 1]; Tiled(After(specs, chunks), specs, last.reports, last.at)
  {
    var n := |chunks| - 1;
    if n == 0 {
      assert chunks[..n] == [];
      FirstTiles(specs, chunks[0].reports, chunks[0].at);
    } else {
      var front := chunks[..n];
      assert forall i :: 0 <= i < |front| ==> front[i] == chunks[i];
      AlwaysTiled(specs, front);
      NextTiles(After(specs, front), specs, front[n - 1].reports, front[n - 1].at, chunks[n].reports, chunks[n].at);
    }
  }

  function Sum(t: Times, specs: seq<Key>, n: nat): real
    requires n <= |specs|
  {
    if n == 0 then 0.0
    else Sum(t, specs, n - 1) + (if RowAt(t, specs, n - 1).wall.Some? then RowAt(t, specs, n - 1).wall.value else 0.0)
  }

  lemma {:induction false} SumTelescopes(t: Times, specs: seq<Key>, done: nat, now: real, n: nat)
    requires Tiled(t, specs, done, now) && 0 < n <= done && n <= |specs|
    ensures RowAt(t, specs, 0).start.Some?
    ensures Sum(t, specs, n) == EndOf(t, specs, n - 1) - RowAt(t, specs, 0).start.value
  {
    assert RowAt(t, specs, 0).start.Some? && RowAt(t, specs, n - 1).wall.Some? && RowAt(t, specs, n - 1).start.Some?;
    if n > 1 {
      SumTelescopes(t, specs, done, now, n - 1);
      assert RowAt(t, specs, n - 2).wall.Some?;
      assert RowAt(t, specs, n - 2 + 1).start == Some(EndOf(t, specs, n - 2));
    } else {
      assert Sum(t, specs, 0) == 0.0;
    }
  }

  /** The durations of the finished analysts add up to the time from the first start to the last completion. */
  lemma {:induction false} DurationsTelescope(specs: seq<Key>, chunks: seq<Chunk>)
    requires Distinct(specs) && chunks != [] && Orderly(specs, chunks) && chunks[|chunks| - 1].reports > 0
    ensures var t, n := After(specs, chunks), chunks[|chunks| - 1].reports;
            && RowAt(t, specs, 0).start.Some?
            && Sum(t, specs, n) == EndOf(t, specs, n - 1) - RowAt(t, specs, 0).start.value
  {
    AlwaysTiled(specs, chunks);
    var n := chunks[|chunks| - 1].reports;
    SumTelescopes(After(specs, chunks), specs, n, chunks[|chunks| - 1].at, n);
  }

  /** A duration, once recorded, stays, whatever chunks follow. */
  lemma {:induction false} DurationsStay(t: Times, specs: seq<Key>, reported: set<Key>, now: real, key: Key)
    requires key in t.walls
    ensures var t' := Synced(t, specs, reported, now).0; key in t'.walls && t'.walls[key] == t.walls[key]
  {
    if specs == [] {
    } else {
      DurationsStay(t, specs[..|specs| - 1], reported, now, key);
    }
  }
}
