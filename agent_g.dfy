/**
 * Provider G, "Hybrid": a title among the first two lines, two date searches tried in order,
 * one time search, and three place strategies tried in turn: an indicator word, a short
 * capitalised line near the end, and the last line.
 */
module AgentG {
  import opened Wrappers
  import opened Json
  import opened Text
  import opened Models
  import opened EventCommon

  /** What the provider quotes and what it reports having spent, in US dollars. */
  const Cost: real := 0.03

  /** The words after which the rest of a line is read as the place, in the order tried. */
  const Indicators: seq<Separator> := ["in", "at", "location"]

  /** Lines that are never taken for a capitalised place. */
  const CommonWords: set<string> := {"Global", "Scoop", "Hackathon", "Nov", "Dec", "AM", "PM"}

  /** The proposal it makes for every intent. */
  function Offer(): (p: Proposal)
    ensures p.estCostUsd == Cost && p.estLatencyMs == 1500 && p.confidence == 0.85
    ensures |p.plan| == 4 && p.needs == []
  {
    NewProposal(Cost, 1500, 0.85, ["1. Apply regex pattern matching", "2. Use heuristic analysis",
      "3. Combine results from multiple strategies", "4. Return balanced structured event data"])
  }

  /** The lines a title is looked for in: `lines[:2]`. */
  function FirstTwo(lines: seq<string>): (r: seq<string>)
    ensures |r| == if |lines| >= 2 then 2 else |lines|
    ensures r == lines[..|r|]
  {
    if |lines| >= 2 then lines[..2] else lines
  }

  /** The date searches in the order they are tried: month range, then single month day. */
  function DateSearches(p: Patterns): seq<Search> {
    [p.monthRange, p.monthDay]
  }

  /** The group counts of the two date patterns and of the time pattern. */
  ghost predicate Arities(p: Patterns) {
    Groups(p.monthRange, 4) && Groups(p.monthDay, 3) && Groups(p.timeRange, 2)
  }

  // ---------------------------------------------------------------- place

  /**
   * One to four words, every word that starts with a letter capitalised, not a common word,
   * not the title.
   */
  predicate ProperNounLine(line: string, title: string) {
    var words := Words(line);
    && 1 <= |words| <= 4
    && (forall w :: 0 <= w < |words| && IsAlpha(words[w][0]) ==> IsUpper(words[w][0]))
    && line !in CommonWords
    && line != title
  }

  function ProperNounIn(title: string): string -> bool {
    line => ProperNounLine(line, title)
  }

  /** Strategy 2: the last of the final three lines that reads as a proper noun. */
  function ProperNounStrategy(lines: seq<string>, title: string): (r: Option<string>)
    ensures r.Some? ==> r.value in lines && ProperNounIn(title)(r.value)
  {
    var tail := LastThree(lines);
    var r := LastAcceptedLine(tail, ProperNounIn(title));
    if r.Some? then InSuffix(lines, |lines| - |tail|, r.value); r else r
  }

  /** Strategy 3: with more than one line, the last one unless it is empty or the title. */
  function LastLineStrategy(lines: seq<string>, title: string): (r: Option<string>)
    ensures r.Some? <==> |lines| > 1 && lines[|lines| - 1] != "" && lines[|lines| - 1] != title
    ensures r.Some? ==> r.value == lines[|lines| - 1]
  {
    if |lines| > 1 && lines[|lines| - 1] != "" && lines[|lines| - 1] != title then Some(lines[|lines| - 1]) else None
  }

  /**
   * The place the three strategies give, each tried only when the ones before it found
   * nothing. Only an indicator can give the title itself as the place, and with more than
   * one line, the last neither empty nor the title, some place is always found.
   */
  function HybridPlace(lines: seq<string>, title: string): (r: Option<string>)
    ensures FirstIndicatorPlace(lines, Indicators).Some? ==> r == FirstIndicatorPlace(lines, Indicators)
    ensures FirstIndicatorPlace(lines, Indicators).None? ==>
      r == if ProperNounStrategy(lines, title).Some? then ProperNounStrategy(lines, title) else LastLineStrategy(lines, title)
    ensures FirstIndicatorPlace(lines, Indicators).None? && r.Some? ==> r.value in lines && r.value != title
    ensures FirstIndicatorPlace(lines, Indicators).None? && |lines| > 1 && lines[|lines| - 1] != "" && lines[|lines| - 1] != title ==>
      r.Some?
  {
    var first := FirstIndicatorPlace(lines, Indicators);
    if first.Some? then first
    else
      var second := ProperNounStrategy(lines, title);
      if second.Some? then second else LastLineStrategy(lines, title)
  }

  /** A text whose first line is the demo title gets the place "hon", read inside "Hackathon". */
  lemma DemoTitleDecidesPlace(lines: seq<string>, title: string)
    requires lines != [] && lines[0] == DemoTitle
    ensures HybridPlace(lines, title) == Some("hon")
  {
    DemoTitleReadsHon(lines[0], Indicators);
    assert HitIn(Indicators)(lines[0]);
    FirstFromStops(lines, HitIn(Indicators), 0, 0);
  }

  // ---------------------------------------------------------------- extraction

  /**
   * What `extract_event_hybrid` makes of a text: the title is the first of the first two lines that is longer than
   * ten characters and does not start with a digit; the first date search that matches
   * decides the dates (a range both, a single date the start); a time range is appended to
   * the dates that exist; the place is the one the three strategies give.
   */
  ghost predicate Extracted(text: string, p: Patterns, d: EventData)
    requires Arities(p)
  {
    ExtractedFromLines(NonBlankLines(text), p, d)
  }

  /** `Extracted`, stated on the text's non-blank lines. */
  ghost predicate ExtractedFromLines(lines: seq<string>, p: Patterns, d: EventData)
    requires Arities(p)
  {
    && (var two := FirstTwo(lines); var k := FirstFrom(two, TitleLine, 0);
        d.title == if k.Some? then Some(two[k.value]) else None)
    && (var full := FullText(lines); var k := FirstHit(DateSearches(p), full);
        var t := p.timeRange(full);
        (k.None? ==> d.start.None? && d.end.None?) &&
        (k == Some(0) ==> var g := p.monthRange(full).value;
          d.start == Some(if t.Some? then DateText(g[0], g[1], g[3]) + " " + t.value[0] else DateText(g[0], g[1], g[3])) &&
          d.end == Some(if t.Some? then DateText(g[0], g[2], g[3]) + " " + t.value[1] else DateText(g[0], g[2], g[3]))) &&
        (k == Some(1) ==> var g := p.monthDay(full).value;
          d.start == Some(if t.Some? then DateText(g[0], g[1], g[2]) + " " + t.value[0] else DateText(g[0], g[1], g[2])) &&
          d.end.None?))
    && (d.location == HybridPlace(lines, TitleOrEmpty(d)))
  }

  /** The extraction leaves nothing open: two data records it allows for a text are the same. */
  lemma ExtractedIsUnique(text: string, p: Patterns, d1: EventData, d2: EventData)
    requires Arities(p)
    requires Extracted(text, p, d1) && Extracted(text, p, d2)
    ensures d1 == d2
  {
  }

  /** The extraction itself, which gives the data `Extracted` describes. */
  method ExtractEventHybrid(text: string, p: Patterns) returns (d: EventData)
    requires Arities(p)
    ensures Extracted(text, p, d)
    ensures d.end.Some? ==> d.start.Some?
  {
    var lines := NonBlankLines(text);
    d := ExtractFromLines(lines, p);
  }

  /** The extraction once the text is cut into its non-blank lines. */
  method ExtractFromLines(lines: seq<string>, p: Patterns) returns (d: EventData)
    requires Arities(p)
    ensures ExtractedFromLines(lines, p, d)
    ensures d.end.Some? ==> d.start.Some?
  {
    var full := FullText(lines);
    var title: Option<string> := None;
    if lines != [] {
      title := ReadTitle(FirstTwo(lines));
    }
    var start, end := ReadDatesAndTimes(full, p);
    var location := ReadPlace(lines, title.GetOr(""));
    d := EventData(title, start, end, location);
  }

  /** The dates, then the times of a time range appended to the dates that exist. */
  method ReadDatesAndTimes(full: string, p: Patterns) returns (start: Option<string>, end: Option<string>)
    requires Arities(p)
    ensures var k := FirstHit(DateSearches(p), full); var t := p.timeRange(full);
      (k.None? ==> start.None? && end.None?) &&
      (k == Some(0) ==> var g := p.monthRange(full).value;
        start == Some(if t.Some? then DateText(g[0], g[1], g[3]) + " " + t.value[0] else DateText(g[0], g[1], g[3])) &&
        end == Some(if t.Some? then DateText(g[0], g[2], g[3]) + " " + t.value[1] else DateText(g[0], g[2], g[3]))) &&
      (k == Some(1) ==> var g := p.monthDay(full).value;
        start == Some(if t.Some? then DateText(g[0], g[1], g[2]) + " " + t.value[0] else DateText(g[0], g[1], g[2])) &&
        end.None?)
    ensures end.Some? ==> start.Some?
  {
    start, end := ReadDates(full, p);
    var time := p.timeRange(full);
    if time.Some? {
      start, end := WithTime(start, time.value[0]), WithTime(end, time.value[1]);
    }
  }

  /** The date loop: the first search that matches sets the dates its groups give, then the loop stops. */
  method ReadDates(full: string, p: Patterns) returns (start: Option<string>, end: Option<string>)
    requires Arities(p)
    ensures var k := FirstHit(DateSearches(p), full);
      (k.None? ==> start.None? && end.None?) &&
      (k == Some(0) ==> var g := p.monthRange(full).value;
        start == Some(DateText(g[0], g[1], g[3])) && end == Some(DateText(g[0], g[2], g[3]))) &&
      (k == Some(1) ==> var g := p.monthDay(full).value; start == Some(DateText(g[0], g[1], g[2])) && end.None?)
  {
    start, end := None, None;
    var searches := DateSearches(p);
    for i := 0 to |searches|
      invariant forall j :: 0 <= j < i ==> searches[j](full).None?
      invariant start.None? && end.None?
    {
      var m := searches[i](full);
      if m.Some? {
        var g := m.value;
        if |g| == 4 {
          start, end := Some(DateText(g[0], g[1], g[3])), Some(DateText(g[0], g[2], g[3]));
          assert FirstHit(searches, full) == Some(i);
          return;
        } else if |g| == 3 {
          start := Some(DateText(g[0], g[1], g[2]));
          assert FirstHit(searches, full) == Some(i);
          return;
        }
      }
    }
  }

  /** The three place strategies in turn. */
  method ReadPlace(lines: seq<string>, title: string) returns (location: Option<string>)
    ensures location == HybridPlace(lines, title)
  {
    location := ReadIndicatorLine(lines, Indicators);
    if location.None? {
      location := LastAccepted(LastThree(lines), ProperNounIn(title));
    }
    if location.None? && |lines| > 1 {
      var lastLine := lines[|lines| - 1];
      if lastLine != "" && lastLine != title {
        location := Some(lastLine);
      }
    }
  }

  /**
   * `a2a`: read the `text` input (empty when absent); grade the extracted fields by their
   * number. A non-string text makes the line split raise, which is answered with `ERROR`.
   */
  method A2a(task: Task, p: Patterns, latencyMs: int, evidence: seq<(string, Json)>) returns (r: Result)
    requires Arities(p)
    ensures r.metrics == Metrics(latencyMs, Cost)
    ensures var input := PlainText(task.inputs);
      (input.NotText? ==> r == Crashed(NoSplitMessage(input.value), latencyMs, Cost)) &&
      (input.Text? ==> r.error.None? && r.evidence == evidence && r.status == StatusFor(|r.data|))
    ensures Lookup(r.data, "end").Some? ==> Lookup(r.data, "start").Some?
    ensures var input := PlainText(task.inputs);
      input.Text? ==> exists d :: Extracted(input.text, p, d) && r.data == DataFields(d)
  {
    var input := PlainText(task.inputs);
    if input.NotText? {
      r := Crashed(NoSplitMessage(input.value), latencyMs, Cost);
      return;
    }
    var d := ExtractEventHybrid(input.text, p);
    r := Answer(d, StatusFor(FieldCount(d)), latencyMs, Cost, evidence);
    assert Extracted(input.text, p, d) && r.data == DataFields(d);
  }
}
