/**
 The decision log as a list of records, and what the text file operations of `DecisionLog`
 mean for it: printing and parsing are inverse, updates and rotation act on the records, and
 a batch update writes the same bytes as updating one by one.
 */
module DecisionRecords {
  import opened Wrappers
  import opened Text
  import opened DecisionLog

  datatype Record = Record(date: string, ticker: string, rating: string, decision: string, outcome: Option<Outcome>)

  /** A tag field: trimmed, on one line, without the delimiter or an end marker. */
  ghost predicate Plain(f: string) {
    Trim(f) && '|' !in f && '\n' !in f && !Contains(f, MARK)
  }

  ghost predicate Sane(o: Outcome) {
    && Plain(o.raw) && o.raw != "pending" && Plain(o.alpha) && Plain(o.days)
    && (o.resolved.Some? ==> Plain(o.resolved.value) && o.resolved.value != "")
    && !Contains(o.reflection, MARK)
  }

  ghost predicate Formed(r: Record) {
    && Plain(r.date) && Plain(r.ticker) && Plain(r.rating)
    && !Contains(r.decision, MARK)
    && !Contains(r.decision, "REFLECTION:")
    && (r.outcome.Some? ==> Sane(r.outcome.value))
  }

  /** A record the log can hold. The definition is looked into only where `Unsealed` is mentioned. */
  ghost predicate WellFormed(r: Record) {
    forall k: nat {:trigger Unsealed(k)} :: Unsealed(k) ==> Formed(r)
  }

  lemma {:induction false} WellFormedMeans(r: Record)
    ensures WellFormed(r) <==> Formed(r)
  {
    assert Unsealed(0);
  }

  function FieldsOf(r: Record): seq<string> {
    [r.date, r.ticker, r.rating] + (if r.outcome.None? then ["pending"] else OutcomeFields(r.outcome.value))
  }

  function Body(decision: string): string {
    RStrip("DECISION:\n" + decision)
  }

  function RestOf(r: Record): string {
    if r.outcome.None? then "\nDECISION:\n" + r.decision
    else "\n" + Body(r.decision) + "\n\nREFLECTION:\n" + r.outcome.value.reflection
  }

  function BlockOf(r: Record): string {
    Tag(FieldsOf(r)) + "\n" + RestOf(r)
  }

  // ---------------------------------------------------------------- tags

  ghost predicate AllPlain(fields: seq<string>) {
    forall i :: 0 <= i < |fields| ==> Plain(fields[i])
  }

  lemma {:induction false} Unmarked(s: string)
    requires '<' !in s
    ensures !Contains(s, MARK)
  {
    QuietFront(s, "", MARK);
    assert s + "" == s;
  }

  lemma {:induction false} FieldsArePlain(r: Record)
    requires WellFormed(r)
    ensures AllPlain(FieldsOf(r)) && |FieldsOf(r)| >= 4
    ensures r.outcome.Some? ==> FieldsOf(r)[3] != "pending" && FieldsOf(r)[|FieldsOf(r)| - 1] != "pending"
  {
    WellFormedMeans(r);
    if r.outcome.None? {
      Unmarked("pending");
    } else {
      var o := r.outcome.value;
      assert (o.days + "d")[|o.days|] == 'd';
      assert Trim(o.days + "d");
      QuietBack(o.days, 'd', MARK);
      if o.resolved.Some? {
        var f := "resolved:" + o.resolved.value;
        QuietFront("resolved:", o.resolved.value, MARK);
        assert f[0] == 'r' && f[|f| - 1] == o.resolved.value[|o.resolved.value| - 1];
        assert Trim(f);
      }
    }
  }

  lemma {:induction false} BarsAreQuiet(fields: seq<string>, c: char)
    requires forall i :: 0 <= i < |fields| ==> c !in fields[i]
    requires c != '|' && c != ' '
    ensures c !in JoinBars(fields)
  {
    if |fields| <= 1 {
    } else {
      BarsAreQuiet(fields[1..], c);
    }
  }

  lemma {:induction false} StripAllCons(a: string, parts: seq<string>)
    ensures StripAll([a] + parts) == [Strip(a)] + StripAll(parts)
  {
    assert ([a] + parts)[1..] == parts;
  }

  lemma {:induction false} BarCut(pad: string, a: string, rest: string)
    ensures pad + (a + " | " + rest) == (pad + a + " ") + ['|'] + (" " + rest)
  {
    assert " | " == " " + ['|'] + " ";
  }

  lemma {:induction false} JoinBarsCut(pad: string, fields: seq<string>)
    requires |fields| > 1
    ensures pad + JoinBars(fields) == (pad + fields[0] + " ") + ['|'] + (" " + JoinBars(fields[1..]))
  {
    BarCut(pad, fields[0], JoinBars(fields[1..]));
  }

  lemma {:induction false} BarsSplitNext(pad: string, first: string, rest: string, fields: seq<string>)
    requires Plain(first) && (pad == "" || pad == " ")
    requires StripAll(SplitChar(rest, '|')) == fields
    ensures StripAll(SplitChar((pad + first + " ") + ['|'] + rest, '|')) == [first] + fields
  {
    SplitCons(pad + first + " ", '|', rest);
    StripAllCons(pad + first + " ", SplitChar(rest, '|'));
    StripPadded(pad, first, " ");
  }

  lemma {:induction false} BarsSplitOne(pad: string, first: string)
    requires Plain(first) && (pad == "" || pad == " ")
    ensures StripAll(SplitChar(pad + first, '|')) == [first]
  {
    StripPadded(pad, first, "");
    assert pad + first + "" == pad + first;
    assert SplitChar(pad + first, '|') == [pad + first];
  }

  /** Splitting a joined tag at its bars and trimming gives the fields back. */
  lemma {:induction false} BarsSplit(pad: string, fields: seq<string>)
    requires fields != [] && AllPlain(fields) && (pad == "" || pad == " ")
    ensures StripAll(SplitChar(pad + JoinBars(fields), '|')) == fields
    decreases |fields|
  {
    if |fields| == 1 {
      assert fields == [fields[0]];
      BarsSplitOne(pad, fields[0]);
    } else {
      JoinBarsCut(pad, fields);
      BarsSplit(" ", fields[1..]);
      BarsSplitNext(pad, fields[0], " " + JoinBars(fields[1..]), fields[1..]);
      assert fields == [fields[0]] + fields[1..];
    }
  }

  lemma {:induction false} BarsUnmarked(pad: string, fields: seq<string>)
    requires AllPlain(fields) && (pad == "" || pad == " ")
    ensures !Contains(pad + JoinBars(fields), MARK)
    decreases |fields|
  {
    if fields == [] {
      Unmarked(pad);
      assert pad + JoinBars(fields) == pad;
    } else if |fields| == 1 {
      QuietFront(pad, fields[0], MARK);
    } else {
      BarsUnmarked(" ", fields[1..]);
      QuietFront(pad, fields[0], MARK);
      QuietBack(pad + fields[0], ' ', MARK);
      QuietAround(pad + fields[0] + " ", '|', " " + JoinBars(fields[1..]), MARK);
      JoinBarsCut(pad, fields);
    }
  }

  lemma {:induction false} TagUnmarked(fields: seq<string>)
    requires AllPlain(fields)
    ensures !Contains(Tag(fields), MARK)
  {
    BarsUnmarked("", fields);
    assert "" + JoinBars(fields) == JoinBars(fields);
    QuietFront("[", JoinBars(fields), MARK);
    QuietBack("[" + JoinBars(fields), ']', MARK);
  }

  lemma {:induction false} TagQuiet(fields: seq<string>, c: char)
    requires (forall i :: 0 <= i < |fields| ==> c !in fields[i]) && c !in "[] |"
    ensures c !in Tag(fields)
  {
    BarsAreQuiet(fields, c);
  }

  lemma {:induction false} TagShape(inner: string)
    ensures var tag := "[" + inner + "]";
            IsTag(tag) && tag[1..|tag| - 1] == inner && Trim(tag)
  {
    var tag := "[" + inner + "]";
    assert tag[0] == '[' && tag[|tag| - 1] == ']';
  }

  lemma {:induction false} TagParses(fields: seq<string>)
    requires fields != [] && AllPlain(fields)
    ensures IsTag(Tag(fields)) && TagFields(Tag(fields)) == fields
    ensures '\n' !in Tag(fields) && Trim(Tag(fields))
  {
    TagShape(JoinBars(fields));
    BarsSplit("", fields);
    assert "" + JoinBars(fields) == JoinBars(fields);
    TagQuiet(fields, '\n');
  }

  lemma {:induction false} JoinBarsLast(fields: seq<string>)
    requires |fields| > 1
    ensures JoinBars(fields) == JoinBars(fields[..|fields| - 1]) + " | " + fields[|fields| - 1]
  {
    var front := fields[..|fields| - 1];
    if |fields| == 2 {
      assert fields[1..] == [fields[1]] && front == [fields[0]];
    } else {
      JoinBarsLast(fields[1..]);
      assert fields[1..][..|fields| - 2] == front[1..];
      var last := fields[|fields| - 1];
      calc {
        JoinBars(fields);
        fields[0] + " | " + (JoinBars(front[1..]) + " | " + last);
        { Assoc(fields[0] + " | ", JoinBars(front[1..]) + " | ", last); Assoc(fields[0] + " | ", JoinBars(front[1..]), " | "); }
        fields[0] + " | " + JoinBars(front[1..]) + " | " + last;
        JoinBars(front) + " | " + last;
      }
    }
  }

  lemma {:induction false} Assoc(a: string, b: string, c: string)
    ensures a + (b + c) == a + b + c
  {
  }

  function Keyish(a: string, b: string, x: string): string {
    "[" + a + " " + ['|'] + (" " + b + " " + ['|'] + x)
  }

  lemma {:induction false} KeyishCuts(a: string, b: string, x: string)
    requires Plain(a) && Plain(b)
    ensures var s := Keyish(a, b, x);
            Before(s, '|') == "[" + a + " " && Before(After(s, '|'), '|') == " " + b + " "
  {
    CutAt("[" + a + " ", '|', " " + b + " " + ['|'] + x);
    CutAt(" " + b + " ", '|', x);
  }

  lemma {:induction false} TagIsKeyish(fields: seq<string>)
    requires |fields| >= 3
    ensures Tag(fields) == Keyish(fields[0], fields[1], " " + JoinBars(fields[2..]) + "]")
  {
    assert fields[1..][1..] == fields[2..];
    JoinBarsCut("", fields);
    JoinBarsCut("", fields[1..]);
  }

  lemma {:induction false} PrefixIsKeyish(date: string, ticker: string, x: string)
    ensures "[" + date + " | " + ticker + " |" + x == Keyish(date, ticker, x)
  {
  }

  /** The prefix test reads off the first two fields. */
  lemma {:induction false} PrefixReadsKey(fields: seq<string>, date: string, ticker: string)
    requires |fields| >= 3 && AllPlain(fields) && Plain(date) && Plain(ticker)
    ensures "[" + date + " | " + ticker + " |" <= Tag(fields) <==> fields[0] == date && fields[1] == ticker
  {
    var tag, prefix := Tag(fields), "[" + date + " | " + ticker + " |";
    TagIsKeyish(fields);
    KeyishCuts(fields[0], fields[1], " " + JoinBars(fields[2..]) + "]");
    if prefix <= tag {
      var more := tag[|prefix|..];
      assert tag == prefix + more;
      PrefixIsKeyish(date, ticker, more);
      KeyishCuts(date, ticker, more);
      Unpad("[", date, fields[0], " ");
      Unpad(" ", ticker, fields[1], " ");
    } else if fields[0] == date && fields[1] == ticker {
      PrefixIsKeyish(date, ticker, " " + JoinBars(fields[2..]) + "]");
    }
  }

  lemma {:induction false} Unpad(l: string, a: string, b: string, r: string)
    requires l + a + r == l + b + r
    ensures a == b
  {
    assert |a| == |b|;
    assert (l + a + r)[|l|..|l| + |a|] == a;
    assert (l + b + r)[|l|..|l| + |b|] == b;
  }

  /** The tag ends with its last field after the last bar. */
  lemma {:induction false} TagEnds(fields: seq<string>) returns (front: string)
    requires |fields| >= 2 && AllPlain(fields)
    ensures Tag(fields) == front + ['|'] + (" " + fields[|fields| - 1] + "]")
  {
    front := "[" + JoinBars(fields[..|fields| - 1]) + " ";
    JoinBarsLast(fields);
  }

  lemma {:induction false} LastPart(front: string, last: string)
    requires '|' !in last
    ensures var parts := SplitChar(front + ['|'] + (" " + last + "]"), '|'); parts[|parts| - 1] == " " + last + "]"
  {
    SplitConcat(front, '|', " " + last + "]");
    assert SplitChar(" " + last + "]", '|') == [" " + last + "]"];
  }

  lemma {:induction false} EndsPending(tag: string)
    requires EndsWith(tag, "| pending]")
    ensures |tag| >= 10 && tag == tag[..|tag| - 10] + ['|'] + (" " + "pending" + "]")
  {
  }

  lemma {:induction false} PendingEnds(front: string)
    ensures EndsWith(front + ['|'] + (" " + "pending" + "]"), "| pending]")
  {
    var tag := front + ['|'] + (" " + "pending" + "]");
    assert tag[|tag| - 10..] == "| pending]";
  }

  /** The suffix test reads off the last field. */
  lemma {:induction false} SuffixReadsPending(fields: seq<string>)
    requires |fields| >= 2 && AllPlain(fields)
    ensures EndsWith(Tag(fields), "| pending]") <==> fields[|fields| - 1] == "pending"
  {
    var tag, last := Tag(fields), fields[|fields| - 1];
    var front := TagEnds(fields);
    LastPart(front, last);
    if EndsWith(tag, "| pending]") {
      EndsPending(tag);
      LastPart(tag[..|tag| - 10], "pending");
      Unpad(" ", last, "pending", "]");
    }
    if last == "pending" {
      PendingEnds(front);
    }
  }

  // ---------------------------------------------------------------- one block, printed and read back

  function Reflected(reflection: string): string {
    RStrip("REFLECTION:\n" + reflection)
  }

  /** What is left of a block below its tag line once it is stripped. */
  function Shown(r: Record): string {
    if r.outcome.None? then "\n" + Body(r.decision)
    else "\n" + Body(r.decision) + "\n\n" + Reflected(r.outcome.value.reflection)
  }

  lemma {:induction false} HeaderStays(header: string, text: string)
    requires header != "" && !Space(header[|header| - 1])
    ensures RStrip(header + "\n" + text) == header + (if RStrip(text) == "" then "" else "\n" + RStrip(text))
  {
    assert header + "\n" + text == header + ("\n" + text);
    RStripAppend(header, "\n" + text);
    RStripNewline(text);
  }

  lemma {:induction false} BodyShape(decision: string)
    ensures Body(decision) == "DECISION:" + (if RStrip(decision) == "" then "" else "\n" + RStrip(decision))
    ensures Trim(Body(decision))
  {
    assert "DECISION:\n" + decision == "DECISION:" + "\n" + decision;
    HeaderStays("DECISION:", decision);
    var k := RStripIsPrefix(decision);
  }

  lemma {:induction false} ReflectedShape(reflection: string)
    ensures Reflected(reflection) == "REFLECTION:" + (if RStrip(reflection) == "" then "" else "\n" + RStrip(reflection))
    ensures Trim(Reflected(reflection))
  {
    assert "REFLECTION:\n" + reflection == "REFLECTION:" + "\n" + reflection;
    HeaderStays("REFLECTION:", reflection);
    var k := RStripIsPrefix(reflection);
  }

  lemma {:induction false} StripAfterHeader(header: string, text: string)
    requires header != "" && !Space(header[0]) && !Space(header[|header| - 1])
    ensures Strip(header + "\n" + text) == header + (if RStrip(text) == "" then "" else "\n" + RStrip(text))
  {
    assert (header + "\n" + text)[0] == header[0];
    HeaderStays(header, text);
  }

  lemma {:induction false} StripPendingBlock(tag: string, decision: string)
    requires tag != "" && !Space(tag[0])
    ensures Strip(tag + "\n" + ("\nDECISION:\n" + decision)) == tag + "\n" + ("\n" + Body(decision))
  {
    var header := tag + "\n\nDECISION:";
    assert header[0] == tag[0];
    BodyShape(decision);
    StripAfterHeader(header, decision);
    assert tag + "\n" + ("\nDECISION:\n" + decision) == header + "\n" + decision;
  }

  lemma {:induction false} StripResolvedBlock(tag: string, body: string, reflection: string)
    requires tag != "" && !Space(tag[0])
    ensures Strip(tag + "\n" + ("\n" + body + "\n\nREFLECTION:\n" + reflection)) ==
            tag + "\n" + ("\n" + body + "\n\n" + Reflected(reflection))
  {
    var header := tag + "\n\n" + body + "\n\nREFLECTION:";
    assert header[0] == tag[0];
    ReflectedShape(reflection);
    StripAfterHeader(header, reflection);
    assert tag + "\n" + ("\n" + body + "\n\nREFLECTION:\n" + reflection) == header + "\n" + reflection;
  }

  lemma {:induction false} StripBlock(r: Record)
    requires WellFormed(r)
    ensures Strip(BlockOf(r)) == Tag(FieldsOf(r)) + "\n" + Shown(r)
  {
    var tag := Tag(FieldsOf(r));
    assert tag[0] == '[';
    if r.outcome.None? {
      StripPendingBlock(tag, r.decision);
    } else {
      StripResolvedBlock(tag, Body(r.decision), r.outcome.value.reflection);
    }
  }

  lemma {:induction false} BlockLines(r: Record)
    requires WellFormed(r)
    ensures Strip(BlockOf(r)) != ""
    ensures TagLine(BlockOf(r)) == Tag(FieldsOf(r)) && Tail(Strip(BlockOf(r))) == Shown(r)
  {
    FieldsArePlain(r);
    TagParses(FieldsOf(r));
    StripBlock(r);
    var tag := Tag(FieldsOf(r));
    assert tag + "\n" + Shown(r) == tag + ['\n'] + Shown(r);
    CutAt(tag, '\n', Shown(r));
    TrimIsFixed(tag);
  }

  function EntryOf(r: Record): Entry {
    match r.outcome
    case None => Entry(r.date, r.ticker, r.rating, true, None, None, None, None, Strip(r.decision), "")
    case Some(o) =>
      Entry(r.date, r.ticker, r.rating, false, Some(o.raw), Some(o.alpha), Some(o.days + "d"), o.resolved,
            Strip(r.decision), Strip(o.reflection))
  }

  lemma {:induction false} BodyQuiet(decision: string)
    requires !Contains(decision, "REFLECTION:")
    ensures !Contains(Body(decision), "REFLECTION:")
    ensures !Contains(RStrip(decision), "REFLECTION:")
  {
    QuietFront("DECISION:\n", decision, "REFLECTION:");
    var k := RStripIsPrefix("DECISION:\n" + decision);
    QuietPrefix("DECISION:\n" + decision, k, "REFLECTION:");
    var j := RStripIsPrefix(decision);
    QuietPrefix(decision, j, "REFLECTION:");
  }

  lemma {:induction false} NoReflection(text: string)
    requires !Contains(text, "REFLECTION:")
    ensures Find(text, "REFLECTION:\n") == None && Find(text, "\nREFLECTION:") == None
  {
    QuietLonger(text, "REFLECTION:", "\n");
    assert "REFLECTION:" + "\n" == "REFLECTION:\n";
    FindNone(text, "REFLECTION:\n");
    QuietLonger(text, "REFLECTION:", "");
    assert "\n" + "REFLECTION:" == "\nREFLECTION:";
    FindNone(text, "\nREFLECTION:");
  }

  lemma {:induction false} ReadBody(text: string)
    requires text != "" && Find(text, "\nREFLECTION:") == None
    ensures DecisionOf("DECISION:\n" + text) == Strip(text)
  {
    assert ("DECISION:\n" + text)[10..] == text;
  }

  lemma {:induction false} ReadPending(decision: string)
    requires !Contains(decision, "REFLECTION:")
    ensures DecisionOf(Body(decision)) == Strip(decision)
    ensures ReflectionOf(Body(decision)) == ""
  {
    var body, text := Body(decision), RStrip(decision);
    BodyShape(decision);
    BodyQuiet(decision);
    StripOfRStrip(decision);
    NoReflection(body);
    if text == "" {
      FindNone(body, "DECISION:\n");
    } else {
      assert body == "DECISION:\n" + text;
      NoReflection(text);
      ReadBody(text);
    }
  }

  lemma {:induction false} NoHeaderBefore(text: string, after: string, i: nat)
    requires !Contains(text, "REFLECTION:") && after != "" && after[0] == '\n' && i <= |text|
    ensures !("\nREFLECTION:" <= (text + "\n" + after)[i..])
  {
    var rest, pat := text + "\n" + after, "\nREFLECTION:";
    assert rest == text + ("\n" + after) && pat[1..] == "REFLECTION:";
    assert rest[i..][1..] == rest[i + 1..];
    if i < |text| {
      NotAcross(text, "\n" + after, "REFLECTION:", i + 1);
    } else {
      assert rest[i + 1] == '\n' && pat[1] == 'R';
    }
  }

  /** The decision text ends where its reflection header begins, one blank line on. */
  lemma {:induction false} FindHeader(text: string, after: string)
    requires !Contains(text, "REFLECTION:") && "\nREFLECTION:" <= after
    ensures Find(text + "\n" + after, "\nREFLECTION:") == Some(|text| + 1)
  {
    forall i | 0 <= i < |text + "\n"|
      ensures !("\nREFLECTION:" <= (text + "\n" + after)[i..])
    {
      NoHeaderBefore(text, after, i);
    }
    FindSkip(text + "\n", after, "\nREFLECTION:");
  }

  lemma {:induction false} DecisionEmpty(after: string)
    requires "\nREFLECTION:" <= after
    ensures DecisionOf("DECISION:\n" + after) == ""
  {
    var body := "DECISION:\n" + after;
    assert body[10..] == after;
    assert after[..0] == "";
  }

  lemma {:induction false} DecisionText(text: string, after: string)
    requires !Contains(text, "REFLECTION:") && "\nREFLECTION:" <= after
    ensures DecisionOf("DECISION:\n" + (text + "\n" + after)) == Strip(text + "\n")
  {
    var rest := text + "\n" + after;
    var body := "DECISION:\n" + rest;
    assert body[10..] == rest;
    FindHeader(text, after);
    assert rest[..|text| + 1] == text + "\n";
  }

  lemma {:induction false} ReadDecision(decision: string, reflection: string)
    requires !Contains(decision, "REFLECTION:")
    ensures DecisionOf(Body(decision) + "\n\n" + Reflected(reflection)) == Strip(decision)
  {
    var text, refl := RStrip(decision), Reflected(reflection);
    var after := "\n" + refl;
    BodyShape(decision);
    BodyQuiet(decision);
    ReflectedShape(reflection);
    StripOfRStrip(decision);
    assert "\nREFLECTION:" <= after;
    if text == "" {
      assert Body(decision) + "\n\n" + refl == "DECISION:\n" + after;
      DecisionEmpty(after);
    } else {
      assert Body(decision) + "\n\n" + refl == "DECISION:\n" + (text + "\n" + after);
      DecisionText(text, after);
      StripBlanksAfter(text, "\n");
    }
  }

  lemma {:induction false} ReadReflection(decision: string, reflection: string)
    requires !Contains(decision, "REFLECTION:")
    ensures ReflectionOf(Body(decision) + "\n\n" + Reflected(reflection)) == Strip(reflection)
  {
    var front, refl := Body(decision) + "\n\n", Reflected(reflection);
    var body := front + refl;
    var pat := "REFLECTION:\n";
    BodyQuiet(decision);
    ReflectedShape(reflection);
    StripOfRStrip(reflection);
    forall i | 0 <= i < |front|
      ensures !(pat <= (front + refl)[i..])
    {
      assert pat[..11] == "REFLECTION:";
      assert front + refl == Body(decision) + ("\n\n" + refl);
      if i <= |Body(decision)| {
        NotAcross(Body(decision), "\n\n" + refl, "REFLECTION:", i);
      } else {
        assert (front + refl)[i..][0] == '\n';
      }
    }
    FindSkip(front, refl, pat);
    if RStrip(reflection) == "" {
      FindNone(refl, pat);
    } else {
      assert refl == pat + RStrip(reflection);
      assert body[|front| + 12..] == RStrip(reflection);
    }
  }

  lemma {:induction false} ReadTexts(r: Record)
    requires WellFormed(r)
    ensures DecisionOf(Strip(Shown(r))) == EntryOf(r).decision
    ensures ReflectionOf(Strip(Shown(r))) == EntryOf(r).reflection
  {
    WellFormedMeans(r);
    BodyShape(r.decision);
    if r.outcome.None? {
      StripPadded("\n", Body(r.decision), "");
      assert "\n" + Body(r.decision) + "" == Shown(r);
      ReadPending(r.decision);
    } else {
      var o := r.outcome.value;
      var body := Body(r.decision) + "\n\n" + Reflected(o.reflection);
      ReflectedShape(o.reflection);
      assert Trim(body);
      StripPadded("\n", body, "");
      assert "\n" + body + "" == Shown(r);
      ReadDecision(r.decision, o.reflection);
      ReadReflection(r.decision, o.reflection);
    }
  }

  /** Printing a record and parsing the block gives the record back, texts trimmed. */
  lemma {:induction false} ParseBlock(r: Record)
    requires WellFormed(r)
    ensures ParseEntry(Strip(BlockOf(r))) == Some(EntryOf(r))
  {
    WellFormedMeans(r);
    var raw := Strip(BlockOf(r));
    FieldsArePlain(r);
    TagParses(FieldsOf(r));
    BlockLines(r);
    StripTwice(BlockOf(r));
    ReadTexts(r);
    assert Strip(raw) == raw && TagLine(raw) == TagLine(BlockOf(r));
    if r.outcome.Some? && r.outcome.value.resolved.Some? {
      ResolvedReads(r.outcome.value);
      assert FieldsOf(r)[6..] == OutcomeFields(r.outcome.value)[3..];
    }
  }

  lemma {:induction false} ResolvedReads(o: Outcome)
    requires Sane(o) && o.resolved.Some?
    ensures OutcomeFields(o)[3..] == ["resolved:" + o.resolved.value]
    ensures ResolvedField(["resolved:" + o.resolved.value]) == o.resolved
  {
    var f := "resolved:" + o.resolved.value;
    assert f[9..] == o.resolved.value;
    TrimIsFixed(o.resolved.value);
  }

  // ---------------------------------------------------------------- blocks in a file

  lemma {:induction false} PendingQuiet(tag: string, decision: string)
    requires !Contains(tag, MARK) && !Contains(decision, MARK)
    ensures !Contains(tag + "\n" + ("\nDECISION:\n" + decision), MARK)
  {
    var header := "\n\nDECISION:\n";
    QuietFront(header, decision, MARK);
    assert (header + decision)[0] == '\n';
    QuietJoin(tag, header + decision, MARK);
    assert tag + "\n" + ("\nDECISION:\n" + decision) == tag + (header + decision);
  }

  lemma {:induction false} BodyUnmarked(decision: string)
    requires !Contains(decision, MARK)
    ensures !Contains(Body(decision), MARK)
  {
    QuietFront("DECISION:\n", decision, MARK);
    var k := RStripIsPrefix("DECISION:\n" + decision);
    QuietPrefix("DECISION:\n" + decision, k, MARK);
  }

  lemma {:induction false} ResolvedQuiet(tag: string, body: string, reflection: string)
    requires !Contains(tag, MARK) && !Contains(body, MARK) && !Contains(reflection, MARK)
    ensures !Contains(tag + "\n" + ("\n" + body + "\n\nREFLECTION:\n" + reflection), MARK)
  {
    var header := "\n\nREFLECTION:\n";
    QuietFront("\n\n", body, MARK);
    assert ("\n\n" + body)[0] == '\n';
    QuietJoin(tag, "\n\n" + body, MARK);
    QuietFront(header, reflection, MARK);
    assert (header + reflection)[0] == '\n';
    QuietJoin(tag + ("\n\n" + body), header + reflection, MARK);
    assert tag + "\n" + ("\n" + body + "\n\nREFLECTION:\n" + reflection) == tag + ("\n\n" + body) + (header + reflection);
  }

  lemma {:induction false} BlockUnmarked(r: Record)
    requires WellFormed(r)
    ensures !Contains(BlockOf(r), MARK)
  {
    WellFormedMeans(r);
    FieldsArePlain(r);
    TagUnmarked(FieldsOf(r));
    if r.outcome.None? {
      PendingQuiet(Tag(FieldsOf(r)), r.decision);
    } else {
      BodyUnmarked(r.decision);
      ResolvedQuiet(Tag(FieldsOf(r)), Body(r.decision), r.outcome.value.reflection);
    }
  }

  /** The first separator after a block without end markers is the one that follows it. */
  lemma {:induction false} FindSep(b: string, rest: string, mark: string)
    requires mark != "" && '\n' !in mark && !Contains(b, mark)
    ensures Find(b + Sep(mark) + rest, Sep(mark)) == Some(|b|)
  {
    var after := Sep(mark) + rest;
    assert b + Sep(mark) + rest == b + after;
    forall i | 0 <= i < |b|
      ensures !(Sep(mark) <= (b + after)[i..])
    {
      assert Sep(mark)[2..2 + |mark|] == mark;
      if i + 2 <= |b| {
        NotAcross(b, after, mark, i + 2);
        assert (b + after)[i..][2..] == (b + after)[i + 2..];
      } else {
        assert (b + after)[i + 2] == after[1] == '\n';
        assert (b + after)[i..][2] == '\n' && Sep(mark)[2] == mark[0];
      }
    }
    FindSkip(b, after, Sep(mark));
  }

  /** Splitting joined blocks gives the blocks back, as long as none contains an end marker. */
  lemma {:induction false} SplitJoin(blocks: seq<string>, mark: string)
    requires blocks != [] && mark != "" && '\n' !in mark
    requires forall i :: 0 <= i < |blocks| ==> !Contains(blocks[i], mark)
    ensures Split(Join(blocks, mark), mark) == blocks
    decreases |blocks|
  {
    var b := blocks[0];
    if |blocks| == 1 {
      forall i | 0 <= i <= |b|
        ensures !(Sep(mark) <= b[i..])
      {
        if i + 2 <= |b| {
          assert !(mark <= b[i + 2..]);
          assert b[i..][2..] == b[i + 2..] && Sep(mark)[2..2 + |mark|] == mark;
        }
      }
      FindNone(b, Sep(mark));
    } else {
      var rest := Join(blocks[1..], mark);
      var text := b + Sep(mark) + rest;
      FindSep(b, rest, mark);
      assert text[..|b|] == b && text[|b| + |Sep(mark)|..] == rest;
      SplitJoin(blocks[1..], mark);
    }
  }

  function Blocks(recs: seq<Record>): (r: seq<string>)
    ensures |r| == |recs|
  {
    if recs == [] then [] else [BlockOf(recs[0])] + Blocks(recs[1..])
  }

  /** The file of a list of records: every block followed by its separator. */
  function Render(recs: seq<Record>): string {
    Join(Blocks(recs) + [""], MARK)
  }

  ghost predicate AllWell(recs: seq<Record>) {
    forall i :: 0 <= i < |recs| ==> WellFormed(recs[i])
  }

  lemma {:induction false} BlocksAppend(recs: seq<Record>, r: Record)
    ensures Blocks(recs + [r]) == Blocks(recs) + [BlockOf(r)]
  {
    if recs == [] {
      assert [] + [r] == [r] && [r][1..] == [];
    } else {
      assert (recs + [r])[1..] == recs[1..] + [r];
      BlocksAppend(recs[1..], r);
    }
  }

  ghost predicate NoneMarked(blocks: seq<string>) {
    forall i :: 0 <= i < |blocks| ==> !Contains(blocks[i], MARK)
  }

  lemma {:induction false} MarkedCons(b: string, rest: seq<string>)
    requires !Contains(b, MARK) && NoneMarked(rest)
    ensures NoneMarked([b] + rest)
  {
  }

  lemma {:induction false} BlocksUnmarked(recs: seq<Record>)
    requires AllWell(recs)
    ensures NoneMarked(Blocks(recs) + [""])
  {
    if recs == [] {
      Unmarked("");
    } else {
      BlockUnmarked(recs[0]);
      BlocksUnmarked(recs[1..]);
      MarkedCons(BlockOf(recs[0]), Blocks(recs[1..]) + [""]);
      BlocksCons(recs);
    }
  }

  lemma {:induction false} SplitRender(recs: seq<Record>)
    requires AllWell(recs)
    ensures Split(Render(recs), MARK) == Blocks(recs) + [""]
  {
    BlocksUnmarked(recs);
    SplitJoin(Blocks(recs) + [""], MARK);
  }

  function Entries(recs: seq<Record>): seq<Entry> {
    if recs == [] then [] else Entries(recs[..|recs| - 1]) + [EntryOf(recs[|recs| - 1])]
  }

  lemma {:induction false} ParseOne(blocks: seq<string>, r: Record)
    requires WellFormed(r)
    ensures ParseAll(blocks + [BlockOf(r)]) == ParseAll(blocks) + [EntryOf(r)]
  {
    var all := blocks + [BlockOf(r)];
    assert all[..|blocks|] == blocks && all[|blocks|] == BlockOf(r);
    ParseBlock(r);
    BlockLines(r);
  }

  lemma {:induction false} ParseBlocks(recs: seq<Record>)
    requires AllWell(recs)
    ensures ParseAll(Blocks(recs)) == Entries(recs)
  {
    if recs == [] {
    } else {
      var front, last := recs[..|recs| - 1], recs[|recs| - 1];
      assert recs == front + [last];
      BlocksAppend(front, last);
      ParseBlocks(front);
      ParseOne(Blocks(front), last);
    }
  }

  /** Round trip: loading the file of some records returns exactly those records, texts trimmed. */
  lemma {:induction false} LoadRendered(recs: seq<Record>)
    requires AllWell(recs)
    ensures Loaded(Render(recs)) == Entries(recs)
  {
    SplitRender(recs);
    assert (Blocks(recs) + [""])[..|recs|] == Blocks(recs);
    ParseBlocks(recs);
  }

  // ---------------------------------------------------------------- updates on records

  predicate Hits(r: Record, u: Update) {
    r.outcome.None? && r.date == u.date && r.ticker == u.ticker
  }

  function Settle(r: Record, u: Update): Record {
    r.(outcome := Some(u.outcome))
  }

  predicate AnyHit(recs: seq<Record>, u: Update) {
    exists i :: 0 <= i < |recs| && Hits(recs[i], u)
  }

  function SettleFirst(recs: seq<Record>, u: Update): seq<Record> {
    if recs == [] then []
    else if Hits(recs[0], u) then [Settle(recs[0], u)] + recs[1..]
    else [recs[0]] + SettleFirst(recs[1..], u)
  }

  function Count(recs: seq<Record>): nat {
    if recs == [] then 0 else (if recs[0].outcome.Some? then 1 else 0) + Count(recs[1..])
  }

  function Forget(recs: seq<Record>, n: nat): seq<Record> {
    if recs == [] then []
    else if recs[0].outcome.Some? && n > 0 then Forget(recs[1..], n - 1)
    else [recs[0]] + Forget(recs[1..], n)
  }

  function Rotated(recs: seq<Record>, cap: Option<int>): seq<Record> {
    if cap == None || cap.value <= 0 || Count(recs) <= cap.value then recs
    else Forget(recs, Count(recs) - cap.value)
  }

  ghost predicate GoodUpdate(u: Update) {
    Plain(u.date) && Plain(u.ticker) && Sane(u.outcome)
  }

  lemma {:induction false} MatchesHits(r: Record, u: Update)
    requires WellFormed(r) && GoodUpdate(u)
    ensures Matches(BlockOf(r), u) <==> Hits(r, u)
  {
    WellFormedMeans(r);
    FieldsArePlain(r);
    BlockLines(r);
    PrefixReadsKey(FieldsOf(r), u.date, u.ticker);
    SuffixReadsPending(FieldsOf(r));
  }

  lemma {:induction false} ResolvedReadsOutcome(r: Record)
    requires WellFormed(r)
    ensures IsResolved(BlockOf(r)) <==> r.outcome.Some?
  {
    FieldsArePlain(r);
    TagParses(FieldsOf(r));
    BlockLines(r);
    SuffixReadsPending(FieldsOf(r));
  }

  /** Rewriting a pending block prints the settled record. */
  lemma {:induction false} SettlePrints(r: Record, u: Update)
    requires WellFormed(r) && GoodUpdate(u) && Hits(r, u)
    ensures ResolvedBlock(BlockOf(r), u) == BlockOf(Settle(r, u)) && WellFormed(Settle(r, u))
  {
    WellFormedMeans(Settle(r, u));
    WellFormedMeans(r);
    RewriteReads(r, u);
    assert FieldsOf(Settle(r, u)) == [u.date, u.ticker, r.rating] + OutcomeFields(u.outcome);
    Regroup(Tag(FieldsOf(Settle(r, u))), Body(r.decision), u.outcome.reflection);
  }

  lemma {:induction false} RewriteReads(r: Record, u: Update)
    requires WellFormed(r)
    requires r.outcome.None?
    ensures ResolvedBlock(BlockOf(r), u) ==
            Tag([u.date, u.ticker, r.rating] + OutcomeFields(u.outcome)) + "\n\n" + Body(r.decision) +
            "\n\nREFLECTION:\n" + u.outcome.reflection
  {
    FieldsArePlain(r);
    TagParses(FieldsOf(r));
    BlockLines(r);
    LStripShown(r.decision);
  }

  lemma {:induction false} LStripShown(decision: string)
    ensures LStrip("\n" + Body(decision)) == Body(decision)
  {
    BodyShape(decision);
    LStripBlanks("\n", Body(decision));
    TrimIsFixed(Body(decision));
  }

  lemma {:induction false} Regroup(tag: string, body: string, reflection: string)
    ensures tag + "\n\n" + body + "\n\nREFLECTION:\n" + reflection ==
            tag + "\n" + ("\n" + body + "\n\nREFLECTION:\n" + reflection)
  {
  }

  lemma {:induction false} EmptyBlock(u: Update)
    ensures !Matches("", u) && !IsResolved("")
  {
    assert Strip("") == "";
  }

  lemma {:induction false} BlocksOf(r: Record, rest: seq<Record>)
    ensures Blocks([r] + rest) + [""] == [BlockOf(r)] + (Blocks(rest) + [""])
  {
    assert ([r] + rest)[1..] == rest;
  }

  lemma {:induction false} BlocksCons(recs: seq<Record>)
    requires recs != []
    ensures Blocks(recs) + [""] == [BlockOf(recs[0])] + (Blocks(recs[1..]) + [""])
  {
  }

  lemma {:induction false} WellCons(r: Record, rest: seq<Record>)
    requires WellFormed(r) && AllWell(rest)
    ensures AllWell([r] + rest)
  {
  }

  lemma {:induction false} UpdateFirstCons(b: string, rest: seq<string>, u: Update)
    ensures UpdateFirst([b] + rest, u) ==
            if Matches(b, u) then [ResolvedBlock(b, u)] + rest else [b] + UpdateFirst(rest, u)
    ensures AnyMatch([b] + rest, u) <==> Matches(b, u) || AnyMatch(rest, u)
  {
    var all := [b] + rest;
    assert all[1..] == rest && all[0] == b;
    assert forall i :: 0 <= i < |rest| ==> rest[i] == all[i + 1];
    assert forall i :: 1 <= i < |all| ==> all[i] == rest[i - 1];
  }

  lemma {:induction false} AnyHitCons(r: Record, rest: seq<Record>, u: Update)
    ensures AnyHit([r] + rest, u) <==> Hits(r, u) || AnyHit(rest, u)
  {
    var all := [r] + rest;
    assert all[0] == r;
    assert forall i :: 0 <= i < |rest| ==> rest[i] == all[i + 1];
    assert forall i :: 1 <= i < |all| ==> all[i] == rest[i - 1];
  }

  lemma {:induction false} SettleFirstCons(r: Record, rest: seq<Record>, u: Update)
    ensures SettleFirst([r] + rest, u) == if Hits(r, u) then [Settle(r, u)] + rest else [r] + SettleFirst(rest, u)
  {
    assert ([r] + rest)[1..] == rest;
  }

  /** Settling the first hit on a file's blocks is settling it on its records. */
  ghost predicate FirstSettles(recs: seq<Record>, u: Update) {
    && UpdateFirst(Blocks(recs) + [""], u) == Blocks(SettleFirst(recs, u)) + [""]
    && (AnyMatch(Blocks(recs) + [""], u) <==> AnyHit(recs, u))
    && AllWell(SettleFirst(recs, u))
  }

  lemma {:induction false} FirstSettlesHit(r: Record, rest: seq<Record>, u: Update)
    requires WellFormed(r) && AllWell(rest) && GoodUpdate(u) && Hits(r, u)
    ensures FirstSettles([r] + rest, u)
  {
    MatchesHits(r, u);
    BlocksOf(r, rest);
    UpdateFirstCons(BlockOf(r), Blocks(rest) + [""], u);
    AnyHitCons(r, rest, u);
    SettleFirstCons(r, rest, u);
    SettlePrints(r, u);
    BlocksOf(Settle(r, u), rest);
    WellCons(Settle(r, u), rest);
  }

  lemma {:induction false} FirstSettlesMiss(r: Record, rest: seq<Record>, u: Update)
    requires WellFormed(r) && GoodUpdate(u) && !Hits(r, u) && FirstSettles(rest, u)
    ensures FirstSettles([r] + rest, u)
  {
    MatchesHits(r, u);
    BlocksOf(r, rest);
    UpdateFirstCons(BlockOf(r), Blocks(rest) + [""], u);
    AnyHitCons(r, rest, u);
    SettleFirstCons(r, rest, u);
    BlocksOf(r, SettleFirst(rest, u));
    WellCons(r, SettleFirst(rest, u));
  }

  lemma {:induction false} UpdateFirstSettles(recs: seq<Record>, u: Update)
    requires AllWell(recs) && GoodUpdate(u)
    ensures FirstSettles(recs, u)
  {
    if recs == [] {
      EmptyBlock(u);
    } else {
      assert recs == [recs[0]] + recs[1..];
      if Hits(recs[0], u) {
        FirstSettlesHit(recs[0], recs[1..], u);
      } else {
        UpdateFirstSettles(recs[1..], u);
        FirstSettlesMiss(recs[0], recs[1..], u);
      }
    }
  }

  lemma {:induction false} DropCons(b: string, rest: seq<string>, n: nat)
    ensures DropResolved([b] + rest, n) ==
            if IsResolved(b) && n > 0 then DropResolved(rest, n - 1) else [b] + DropResolved(rest, n)
    ensures Resolved([b] + rest) == (if IsResolved(b) then 1 else 0) + Resolved(rest)
  {
    assert ([b] + rest)[1..] == rest;
  }

  lemma {:induction false} DropPast(b: string, rest: seq<string>, kept: seq<string>, n: nat)
    requires (!IsResolved(b) || n == 0) && DropResolved(rest, n) == kept
    ensures DropResolved([b] + rest, n) == [b] + kept
    ensures Resolved([b] + rest) == (if IsResolved(b) then 1 else 0) + Resolved(rest)
  {
    DropCons(b, rest, n);
  }

  lemma {:induction false} ForgetCons(r: Record, rest: seq<Record>, n: nat)
    ensures Forget([r] + rest, n) == if r.outcome.Some? && n > 0 then Forget(rest, n - 1) else [r] + Forget(rest, n)
    ensures Count([r] + rest) == (if r.outcome.Some? then 1 else 0) + Count(rest)
  {
    assert ([r] + rest)[1..] == rest;
  }

  lemma {:induction false} NothingResolved()
    ensures DropResolved([""], 0) == [""] && Resolved([""]) == 0 && forall n: nat :: DropResolved([""], n) == [""]
  {
    EmptyBlock(Update("", "", Outcome("", "", "", None, "")));
    forall n: nat
      ensures DropResolved([""], n) == [""]
    {
      assert [""][1..] == [];
    }
  }

  /** Dropping the oldest resolved blocks of a file is forgetting the oldest resolved records. */
  ghost predicate Forgets(recs: seq<Record>, n: nat) {
    && DropResolved(Blocks(recs) + [""], n) == Blocks(Forget(recs, n)) + [""]
    && Resolved(Blocks(recs) + [""]) == Count(recs)
  }

  lemma {:induction false} ForgetsOne(r: Record, rest: seq<Record>, n: nat)
    requires WellFormed(r) && r.outcome.Some? && n > 0 && Forgets(rest, n - 1)
    ensures Forgets([r] + rest, n)
  {
    ResolvedReadsOutcome(r);
    BlocksOf(r, rest);
    DropCons(BlockOf(r), Blocks(rest) + [""], n);
    ForgetCons(r, rest, n);
  }

  lemma {:induction false} KeepsOne(r: Record, rest: seq<Record>, n: nat)
    requires WellFormed(r) && (r.outcome.None? || n == 0) && Forgets(rest, n)
    ensures Forgets([r] + rest, n)
  {
    ResolvedReadsOutcome(r);
    BlocksOf(r, rest);
    DropPast(BlockOf(r), Blocks(rest) + [""], Blocks(Forget(rest, n)) + [""], n);
    ForgetCons(r, rest, n);
    BlocksOf(r, Forget(rest, n));
  }

  lemma {:induction false} ForgetsNone(n: nat)
    ensures Forgets([], n)
  {
    NothingResolved();
    assert Blocks([]) + [""] == [""];
  }

  lemma {:induction false} ForgetPrints(recs: seq<Record>, n: nat)
    requires AllWell(recs)
    ensures Forgets(recs, n)
    decreases recs
  {
    if recs == [] {
      ForgetsNone(n);
    } else {
      assert recs == [recs[0]] + recs[1..];
      ForgetPrints(recs[1..], if recs[0].outcome.Some? && n > 0 then n - 1 else n);
      ForgetsNext(recs[0], recs[1..], n);
    }
  }

  lemma {:induction false} ForgetsNext(r: Record, rest: seq<Record>, n: nat)
    requires WellFormed(r) && Forgets(rest, if r.outcome.Some? && n > 0 then n - 1 else n)
    ensures Forgets([r] + rest, n)
  {
    if r.outcome.Some? && n > 0 {
      ForgetsOne(r, rest, n);
    } else {
      KeepsOne(r, rest, n);
    }
  }

  lemma {:induction false} CountPrints(recs: seq<Record>)
    requires AllWell(recs)
    ensures Resolved(Blocks(recs) + [""]) == Count(recs)
  {
    ForgetPrints(recs, 0);
  }

  predicate MustDrop(count: nat, cap: Option<int>) {
    cap.Some? && count > cap.value > 0
  }

  lemma {:induction false} RotateMeans(blocks: seq<string>, cap: Option<int>, count: nat, dropped: seq<string>)
    requires Resolved(blocks) == count
    requires MustDrop(count, cap) ==> DropResolved(blocks, count - cap.value) == dropped
    ensures Rotate(blocks, cap) == if MustDrop(count, cap) then dropped else blocks
  {
  }

  lemma {:induction false} RotatedMeans(recs: seq<Record>, cap: Option<int>)
    ensures Rotated(recs, cap) == if MustDrop(Count(recs), cap) then Forget(recs, Count(recs) - cap.value) else recs
  {
  }

  lemma {:induction false} ForgetKeepsWell(recs: seq<Record>, n: nat)
    requires AllWell(recs)
    ensures AllWell(Forget(recs, n))
    decreases recs
  {
    if recs == [] {
    } else {
      if recs[0].outcome.Some? && n > 0 {
        ForgetKeepsWell(recs[1..], n - 1);
      } else {
        ForgetKeepsWell(recs[1..], n);
        WellCons(recs[0], Forget(recs[1..], n));
      }
    }
  }

  lemma {:induction false} RotatePrints(recs: seq<Record>, cap: Option<int>)
    requires AllWell(recs)
    ensures Rotate(Blocks(recs) + [""], cap) == Blocks(Rotated(recs, cap)) + [""]
    ensures AllWell(Rotated(recs, cap))
  {
    CountPrints(recs);
    RotatedMeans(recs, cap);
    if MustDrop(Count(recs), cap) {
      var n := Count(recs) - cap.value;
      ForgetPrints(recs, n);
      ForgetKeepsWell(recs, n);
      RotateMeans(Blocks(recs) + [""], cap, Count(recs), Blocks(Forget(recs, n)) + [""]);
    } else {
      RotateMeans(Blocks(recs) + [""], cap, Count(recs), []);
    }
  }

  /** A single update on the file is: settle the first pending record with that key, then rotate. */
  lemma {:induction false} UpdatedRendered(recs: seq<Record>, u: Update, cap: Option<int>)
    requires AllWell(recs) && GoodUpdate(u)
    ensures var recs' := if AnyHit(recs, u) then Rotated(SettleFirst(recs, u), cap) else recs;
            Updated(Render(recs), u, cap) == Render(recs') && AllWell(recs')
  {
    SplitRender(recs);
    UpdateFirstSettles(recs, u);
    RotatePrints(SettleFirst(recs, u), cap);
  }
}
