/**
 `TradingMemoryLog` (tradingagents/agents/utils/memory.py): a text file of entries separated
 by an end marker, appended to, parsed, updated in place and rotated.

 The functions here work on the file's text exactly as the source does, with "\n" as the only
 line break. `TradingMemoryLog` performs them with the source's loops.
 */
module DecisionLog {
  import opened Wrappers
  import opened Text

  const MARK := "<!-- ENTRY_END -->"

  function Sep(mark: string): string {
    "\n\n" + mark + "\n\n"
  }

  // ---------------------------------------------------------------- blocks

  /** `text.split(separator)`. */
  function Split(text: string, mark: string): (blocks: seq<string>)
    ensures blocks != []
    decreases |text|
  {
    match Find(text, Sep(mark))
    case None => [text]
    case Some(k) =>
      if k + |Sep(mark)| <= |text| then [text[..k]] + Split(text[k + |Sep(mark)|..], mark) else [text]
  }

  function Join(blocks: seq<string>, mark: string): string {
    if blocks == [] then ""
    else if |blocks| == 1 then blocks[0]
    else blocks[0] + Sep(mark) + Join(blocks[1..], mark)
  }

  // ---------------------------------------------------------------- tags

  function JoinBars(fields: seq<string>): string {
    if fields == [] then ""
    else if |fields| == 1 then fields[0]
    else fields[0] + " | " + JoinBars(fields[1..])
  }

  function Tag(fields: seq<string>): string {
    "[" + JoinBars(fields) + "]"
  }

  function StripAll(parts: seq<string>): (r: seq<string>)
    ensures |r| == |parts|
  {
    if parts == [] then [] else [Strip(parts[0])] + StripAll(parts[1..])
  }

  /** `[f.strip() for f in tag_line[1:-1].split("|")]`. */
  function TagFields(tag: string): seq<string>
    requires |tag| >= 2
  {
    StripAll(SplitChar(tag[1..|tag| - 1], '|'))
  }

  predicate EndsWith(s: string, suffix: string) {
    |suffix| <= |s| && s[|s| - |suffix|..] == suffix
  }

  predicate IsTag(line: string) {
    |line| >= 2 && line[0] == '[' && line[|line| - 1] == ']'
  }

  predicate PendingFor(line: string, date: string, ticker: string) {
    "[" + date + " | " + ticker + " |" <= line && EndsWith(line, "| pending]")
  }

  function TagLine(block: string): string {
    Strip(Before(Strip(block), '\n'))
  }

  /** `"\n".join(lines[1:])`. */
  function Tail(s: string): string {
    After(s, '\n')
  }

  // ---------------------------------------------------------------- updates

  datatype Outcome = Outcome(raw: string, alpha: string, days: string, resolved: Option<string>, reflection: string)

  datatype Update = Update(date: string, ticker: string, outcome: Outcome)

  function OutcomeFields(o: Outcome): seq<string> {
    [o.raw, o.alpha, o.days + "d"] +
    (if o.resolved.Some? && o.resolved.value != "" then ["resolved:" + o.resolved.value] else [])
  }

  function ResolvedBlock(block: string, u: Update): string {
    var stripped := Strip(block);
    var line := TagLine(block);
    var rating := if |line| >= 2 && |TagFields(line)| > 2 then TagFields(line)[2] else "";
    Tag([u.date, u.ticker, rating] + OutcomeFields(u.outcome)) + "\n\n" + LStrip(Tail(stripped)) +
    "\n\nREFLECTION:\n" + u.outcome.reflection
  }

  predicate Matches(block: string, u: Update) {
    Strip(block) != "" && PendingFor(TagLine(block), u.date, u.ticker)
  }

  /** The single update's loop: only the first matching block changes. */
  function UpdateFirst(blocks: seq<string>, u: Update): seq<string> {
    if blocks == [] then []
    else if Matches(blocks[0], u) then [ResolvedBlock(blocks[0], u)] + blocks[1..]
    else [blocks[0]] + UpdateFirst(blocks[1..], u)
  }

  /** What a loop over the blocks still has to write from `i` on. */
  function Remaining(blocks: seq<string>, i: nat, u: Update, updated: bool): seq<string>
    requires i <= |blocks|
  {
    if updated then blocks[i..] else UpdateFirst(blocks[i..], u)
  }

  lemma {:induction false} RemainingCons(blocks: seq<string>, i: nat, u: Update, updated: bool)
    requires i < |blocks|
    ensures var hit := Matches(blocks[i], u);
            Remaining(blocks, i, u, updated) ==
            [if !updated && hit then ResolvedBlock(blocks[i], u) else blocks[i]] + Remaining(blocks, i + 1, u, updated || hit)
  {
    assert blocks[i..][1..] == blocks[i + 1..] && blocks[i..][0] == blocks[i];
    assert blocks[i..] == [blocks[i]] + blocks[i + 1..];
  }

  predicate AnyMatch(blocks: seq<string>, u: Update) {
    exists i :: 0 <= i < |blocks| && Matches(blocks[i], u)
  }

  /** The first entry of the lookup that matches a block. */
  function FirstMatch(block: string, us: seq<Update>): Option<nat> {
    if us == [] then None
    else if Matches(block, us[0]) then Some(0)
    else
      match FirstMatch(block, us[1..])
      case None => None
      case Some(k) => Some(k + 1)
  }

  /** The batch update's loop: each block takes the first lookup entry it matches, and uses it up. */
  function UpdateAll(blocks: seq<string>, us: seq<Update>): seq<string> {
    if blocks == [] then []
    else
      match FirstMatch(blocks[0], us)
      case None => [blocks[0]] + UpdateAll(blocks[1..], us)
      case Some(k) =>
        if k < |us| then [ResolvedBlock(blocks[0], us[k])] + UpdateAll(blocks[1..], us[..k] + us[k + 1..])
        else [blocks[0]] + UpdateAll(blocks[1..], us)
  }

  /** A dictionary keyed by (date, ticker): a repeated key keeps its place and takes the new value. */
  function Keyed(us: seq<Update>): seq<Update> {
    if us == [] then [] else Enter(Keyed(us[..|us| - 1]), us[|us| - 1])
  }

  function Enter(d: seq<Update>, u: Update): seq<Update> {
    if d == [] then [u]
    else if d[0].date == u.date && d[0].ticker == u.ticker then [u] + d[1..]
    else [d[0]] + Enter(d[1..], u)
  }

  // ---------------------------------------------------------------- rotation

  predicate IsResolved(block: string) {
    Strip(block) != "" && IsTag(TagLine(block)) && !EndsWith(TagLine(block), "| pending]")
  }

  function Resolved(blocks: seq<string>): nat {
    if blocks == [] then 0 else (if IsResolved(blocks[0]) then 1 else 0) + Resolved(blocks[1..])
  }

  /** Drop the oldest `n` resolved blocks. */
  function DropResolved(blocks: seq<string>, n: nat): seq<string> {
    if blocks == [] then []
    else if IsResolved(blocks[0]) && n > 0 then DropResolved(blocks[1..], n - 1)
    else [blocks[0]] + DropResolved(blocks[1..], n)
  }

  function Rotate(blocks: seq<string>, cap: Option<int>): seq<string> {
    if cap == None || cap.value <= 0 || Resolved(blocks) <= cap.value then blocks
    else DropResolved(blocks, Resolved(blocks) - cap.value)
  }

  // ---------------------------------------------------------------- the file operations

  predicate AlreadyPending(text: string, date: string, ticker: string) {
    var lines := SplitChar(text, '\n');
    exists i :: 0 <= i < |lines| && PendingFor(lines[i], date, ticker)
  }

  function NewEntry(date: string, ticker: string, rating: string, decision: string): string {
    Tag([date, ticker, rating, "pending"]) + "\n\nDECISION:\n" + decision
  }

  function Stored(text: string, date: string, ticker: string, rating: string, decision: string): string {
    if AlreadyPending(text, date, ticker) then text
    else text + NewEntry(date, ticker, rating, decision) + Sep(MARK)
  }

  function Updated(text: string, u: Update, cap: Option<int>): string {
    var blocks := Split(text, MARK);
    if AnyMatch(blocks, u) then Join(Rotate(UpdateFirst(blocks, u), cap), MARK) else text
  }

  function OneByOne(text: string, us: seq<Update>, cap: Option<int>): string
    decreases |us|
  {
    if us == [] then text else OneByOne(Updated(text, us[0], cap), us[1..], cap)
  }

  function Batched(text: string, us: seq<Update>, cap: Option<int>): string {
    if us == [] then text
    else Join(Rotate(UpdateAll(Split(text, MARK), Keyed(us)), cap), MARK)
  }

  // ---------------------------------------------------------------- parsing

  datatype Entry = Entry(
    date: string, ticker: string, rating: string, pending: bool,
    raw: Option<string>, alpha: Option<string>, holding: Option<string>, resolved: Option<string>,
    decision: string, reflection: string)

  function ResolvedField(fields: seq<string>): Option<string> {
    if fields == [] then None
    else
      var last := fields[|fields| - 1];
      if "resolved:" <= last then Some(Strip(last[9..])) else ResolvedField(fields[..|fields| - 1])
  }

  /** `DECISION:\n(.*?)(?=\nREFLECTION:|\Z)`. */
  function DecisionOf(body: string): string {
    match Find(body, "DECISION:\n")
    case None => ""
    case Some(k) =>
      var rest := if k + 10 <= |body| then body[k + 10..] else "";
      match Find(rest, "\nREFLECTION:")
      case None => Strip(rest)
      case Some(j) => Strip(if j <= |rest| then rest[..j] else rest)
  }

  /** `REFLECTION:\n(.*?)$` on a stripped body: everything after the header. */
  function ReflectionOf(body: string): string {
    match Find(body, "REFLECTION:\n")
    case None => ""
    case Some(k) => Strip(if k + 12 <= |body| then body[k + 12..] else "")
  }

  function ParseEntry(raw: string): Option<Entry> {
    var stripped := Strip(raw);
    var line := TagLine(raw);
    if !IsTag(line) || |TagFields(line)| < 4 then None
    else
      var f := TagFields(line);
      var body := Strip(Tail(stripped));
      Some(Entry(f[0], f[1], f[2], f[3] == "pending",
        if f[3] == "pending" then None else Some(f[3]),
        if |f| > 4 then Some(f[4]) else None,
        if |f| > 5 then Some(f[5]) else None,
        if |f| > 6 then ResolvedField(f[6..]) else None,
        DecisionOf(body), ReflectionOf(body)))
  }

  function ParseAll(blocks: seq<string>): seq<Entry> {
    if blocks == [] then []
    else
      var rest := ParseAll(blocks[..|blocks| - 1]);
      var block := blocks[|blocks| - 1];
      if Strip(block) == "" || ParseEntry(Strip(block)).None? then rest
      else rest + [ParseEntry(Strip(block)).value]
  }

  function Loaded(text: string): seq<Entry> {
    ParseAll(Split(text, MARK))
  }

  // ---------------------------------------------------------------- the class

  /** Looking one entry further back either takes it or leaves the selection as it is. */
  lemma {:induction false} NewestStep(known: seq<Entry>, i: nat, ticker: string, about: bool, got: seq<Entry>, n: nat)
    requires 0 < i <= |known| && |got| <= n
    ensures var e := known[i - 1];
            var got' := if (e.ticker == ticker) == about && |got| < n then got + [e] else got;
            got + Newest(known[..i], ticker, about, n - |got|) == got' + Newest(known[..i - 1], ticker, about, n - |got'|)
  {
    assert known[..i][..i - 1] == known[..i - 1] && known[..i][i - 1] == known[i - 1];
  }

  class TradingMemoryLog {
    var text: string
    const cap: Option<int>

    constructor (cap: Option<int>)
      ensures text == "" && this.cap == cap
    {
      text := "";
      this.cap := cap;
    }

    method StoreDecision(ticker: string, date: string, rating: string, decision: string)
      modifies this
      ensures text == Stored(old(text), date, ticker, rating, decision)
    {
      var lines := SplitChar(text, '\n');
      var i := 0;
      while i < |lines|
        invariant 0 <= i <= |lines|
        invariant forall j :: 0 <= j < i ==> !PendingFor(lines[j], date, ticker)
      {
        if PendingFor(lines[i], date, ticker) {
          return;
        }
        i := i + 1;
      }
      text := text + NewEntry(date, ticker, rating, decision) + Sep(MARK);
    }

    method LoadEntries() returns (entries: seq<Entry>)
      ensures entries == Loaded(text)
    {
      var blocks := Split(text, MARK);
      entries := [];
      var i := 0;
      while i < |blocks|
        invariant 0 <= i <= |blocks|
        invariant entries == ParseAll(blocks[..i])
      {
        assert blocks[..i + 1][..i] == blocks[..i];
        var raw := Strip(blocks[i]);
        if raw != "" {
          var parsed := ParseEntry(raw);
          if parsed.Some? {
            entries := entries + [parsed.value];
          }
        }
        i := i + 1;
      }
      assert blocks[..i] == blocks;
    }

    method ApplyRotation(blocks: seq<string>) returns (kept: seq<string>)
      ensures kept == Rotate(blocks, cap)
    {
      if cap == None || cap.value <= 0 {
        return blocks;
      }
      var resolved := Resolved(blocks);
      if resolved <= cap.value {
        return blocks;
      }
      var toDrop := resolved - cap.value;
      kept := [];
      var i := 0;
      while i < |blocks|
        invariant 0 <= i <= |blocks| && toDrop >= 0
        invariant kept + DropResolved(blocks[i..], toDrop) == Rotate(blocks, cap)
      {
        assert blocks[i..][1..] == blocks[i + 1..];
        if IsResolved(blocks[i]) && toDrop > 0 {
          toDrop := toDrop - 1;
        } else {
          kept := kept + [blocks[i]];
        }
        i := i + 1;
      }
    }

    /** The loop of `update_with_outcome`. */
    method ReplaceFirst(blocks: seq<string>, u: Update) returns (newBlocks: seq<string>, updated: bool)
      ensures newBlocks == UpdateFirst(blocks, u) && updated == AnyMatch(blocks, u)
    {
      updated := false;
      newBlocks := [];
      var i := 0;
      while i < |blocks|
        invariant 0 <= i <= |blocks|
        invariant updated <==> exists j :: 0 <= j < i && Matches(blocks[j], u)
        invariant newBlocks + Remaining(blocks, i, u, updated) == UpdateFirst(blocks, u)
      {
        RemainingCons(blocks, i, u, updated);
        var block := blocks[i];
        if !updated && Matches(block, u) {
          block := ResolvedBlock(block, u);
          updated := true;
        }
        newBlocks := newBlocks + [block];
        i := i + 1;
      }
    }

    method UpdateWithOutcome(u: Update)
      modifies this
      ensures text == Updated(old(text), u, cap)
    {
      var blocks := Split(text, MARK);
      var newBlocks, updated := ReplaceFirst(blocks, u);
      if !updated {
        return;
      }
      newBlocks := ApplyRotation(newBlocks);
      text := Join(newBlocks, MARK);
    }

    method BatchUpdateWithOutcomes(updates: seq<Update>)
      modifies this
      ensures text == Batched(old(text), updates, cap)
    {
      if updates == [] {
        return;
      }
      var blocks := Split(text, MARK);
      var left := Keyed(updates);
      var newBlocks := [];
      var i := 0;
      while i < |blocks|
        invariant 0 <= i <= |blocks|
        invariant newBlocks + UpdateAll(blocks[i..], left) == UpdateAll(blocks, Keyed(updates))
      {
        assert blocks[i..][1..] == blocks[i + 1..];
        var k := FirstMatch(blocks[i], left);
        if k.Some? && k.value < |left| {
          newBlocks := newBlocks + [ResolvedBlock(blocks[i], left[k.value])];
          left := left[..k.value] + left[k.value + 1..];
        } else {
          newBlocks := newBlocks + [blocks[i]];
        }
        i := i + 1;
      }
      assert newBlocks == UpdateAll(blocks, Keyed(updates));
      newBlocks := ApplyRotation(newBlocks);
      text := Join(newBlocks, MARK);
    }

    /** The selection loop of `get_past_context`, over already loaded entries. */
    method SelectPast(entries: seq<Entry>, ticker: string, nSame: nat, nCross: nat, asOf: Option<string>)
      returns (same: seq<Entry>, cross: seq<Entry>)
      ensures same == Newest(Known(entries, asOf), ticker, true, nSame)
      ensures cross == Newest(Known(entries, asOf), ticker, false, nCross)
    {
      var known := Known(entries, asOf);
      same, cross := [], [];
      var i := |known|;
      assert known[..i] == known;
      while i > 0
        invariant 0 <= i <= |known|
        invariant |same| <= nSame && |cross| <= nCross
        invariant same + Newest(known[..i], ticker, true, nSame - |same|) == Newest(known, ticker, true, nSame)
        invariant cross + Newest(known[..i], ticker, false, nCross - |cross|) == Newest(known, ticker, false, nCross)
      {
        if |same| >= nSame && |cross| >= nCross {
          break;
        }
        NewestStep(known, i, ticker, true, same, nSame);
        NewestStep(known, i, ticker, false, cross, nCross);
        i := i - 1;
        var e := known[i];
        if e.ticker == ticker && |same| < nSame {
          same := same + [e];
        } else if e.ticker != ticker && |cross| < nCross {
          cross := cross + [e];
        }
      }
    }
  }

  /** The resolved entries, and with a cutoff only those whose outcome was known by it. */
  function Known(entries: seq<Entry>, asOf: Option<string>): seq<Entry> {
    if entries == [] then []
    else
      var rest := Known(entries[..|entries| - 1], asOf);
      var e := entries[|entries| - 1];
      if !e.pending && (asOf.Some? ==> e.resolved.Some? && e.resolved.value != "" && Leq(e.resolved.value, asOf.value))
      then rest + [e] else rest
  }

  /** Newest first, the entries about `ticker` (or about others), at most `n`. */
  function Newest(entries: seq<Entry>, ticker: string, about: bool, n: nat): seq<Entry> {
    if entries == [] || n == 0 then []
    else
      var e := entries[|entries| - 1];
      if (e.ticker == ticker) == about then [e] + Newest(entries[..|entries| - 1], ticker, about, n - 1)
      else Newest(entries[..|entries| - 1], ticker, about, n)
  }
}
