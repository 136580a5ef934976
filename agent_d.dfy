/**
 * Provider D, "Fast LLM": three date searches tried in order over the joined lines, one time
 * search, and a place among the last two lines.
 */
module AgentD {
  import opened Wrappers
  import opened Json
  import opened Text
  import opened Models
  import opened EventCommon

  /** What the provider quotes and what it reports having spent, in US dollars. */
  const Cost: real := 0.02

  /** Lines that are never taken for a place. */
  const CommonWords: set<string> := {"Nov", "Dec", "Jan", "AM", "PM", "Global", "Scoop", "Hackathon"}

  /** The proposal it makes for every intent. */
  function Offer(): (p: Proposal)
    ensures p.estCostUsd == Cost && p.estLatencyMs == 1000 && p.confidence == 0.80
    ensures |p.plan| == 3 && p.needs == []
  {
    NewProposal(Cost, 1000, 0.80, ["1. Process input with token-efficient LLM",
      "2. Apply enhanced pattern matching with context", "3. Return structured event data"])
  }

  /** The date searches in the order they are tried: month range, single month day, day range. */
  function DateSearches(p: Patterns): seq<Search> {
    [p.monthRange, p.monthDay, p.dayRange]
  }

  /** The index of the day-first search among `DateSearches`. */
  const DayRangeSearch: nat := 2

  /** The group counts of the three date patterns and of the time pattern. */
  ghost predicate Arities(p: Patterns) {
    Groups(p.monthRange, 4) && Groups(p.monthDay, 3) && Groups(p.dayRange, 4) && Groups(p.timeRange, 2)
  }

  /**
   * The dates as the source assigns them: any four groups are read as month, first day,
   * last day, year, and three as month, day, year.
   */
  function WrittenDates(g: seq<string>): (r: (Option<string>, Option<string>))
    ensures |g| == 4 ==> r == (Some(MonthFirstDates(g).0), Some(MonthFirstDates(g).1))
    ensures |g| == 3 ==> r == (Some(DateText(g[0], g[1], g[2])), None)
    ensures |g| != 3 && |g| != 4 ==> r == (None, None)
  {
    if |g| == 4 then
      var dates := MonthFirstDates(g);
      (Some(dates.0), Some(dates.1))
    else if |g| == 3 then (Some(DateText(g[0], g[1], g[2])), None)
    else (None, None)
  }

  /**
   * The dates as the patterns mean them: the day-range search captures first day, last
   * day, month, year, so its groups are read day-first.
   */
  function IntendedDates(hit: nat, g: seq<string>): (r: (Option<string>, Option<string>))
    ensures hit != DayRangeSearch ==> r == WrittenDates(g)
    ensures hit == DayRangeSearch && |g| == 4 ==> r == (Some(DayFirstDates(g).0), Some(DayFirstDates(g).1))
    ensures r.1.Some? ==> r.0.Some?
  {
    if |g| == 4 && hit == DayRangeSearch then
      var dates := DayFirstDates(g);
      (Some(dates.0), Some(dates.1))
    else WrittenDates(g)
  }

  /** Under the intended reading both dates of a four-group match start with its month. */
  lemma IntendedDatesStartWithMonth(hit: nat, g: seq<string>)
    requires |g| == 4
    ensures var month := if hit == DayRangeSearch then g[2] else g[0];
      var r := IntendedDates(hit, g);
      r.0.Some? && r.1.Some? && StartsWith(r.0.value, month + " ") && StartsWith(r.1.value, month + " ")
  {
  }

  /** The groups the day-range search yields for "22-23 Nov, 2025". */
  const DayRangeGroups: seq<string> := ["22", "23", "Nov", "2025"]

  /**
   * As written, "22-23 Nov, 2025" becomes start "22 23, 2025" and end "22 Nov, 2025", and
   * neither names the month first; the intended reading gives "Nov 22, 2025" and "Nov 23, 2025".
   */
  lemma DayRangeReadMonthFirst()
    ensures WrittenDates(DayRangeGroups) == (Some("22 23, 2025"), Some("22 Nov, 2025"))
    ensures !StartsWith(WrittenDates(DayRangeGroups).0.value, "Nov ")
    ensures IntendedDates(DayRangeSearch, DayRangeGroups) == (Some("Nov 22, 2025"), Some("Nov 23, 2025"))
  {
    assert DateText("22", "23", "2025") == "22 23, 2025";
    assert DateText("22", "Nov", "2025") == "22 Nov, 2025";
    assert DateText("Nov", "22", "2025") == "Nov 22, 2025";
    assert DateText("Nov", "23", "2025") == "Nov 23, 2025";
    assert [DayRangeGroups[2], DayRangeGroups[0], DayRangeGroups[1], DayRangeGroups[3]] == ["Nov", "22", "23", "2025"];
    assert "22 23, 2025"[..4][0] != "Nov "[0];
  }

  /** A line read as a place: at most three words, one of them capitalised, not common, not the title. */
  predicate PlaceFor(title: string, line: string) {
    var words := Words(line);
    && |words| <= 3
    && (exists w :: 0 <= w < |words| && words[w] != "" && IsUpper(words[w][0]))
    && line !in CommonWords
    && line != title
  }

  function PlaceIn(title: string): string -> bool {
    line => PlaceFor(title, line)
  }

  /** The lines the place is looked for in: `lines[-2:]`. */
  function LastTwo(lines: seq<string>): (r: seq<string>)
    ensures |r| == if |lines| >= 2 then 2 else |lines|
    ensures r == lines[|lines| - |r|..]
  {
    if |lines| >= 2 then lines[|lines| - 2..] else lines
  }

  /**
   * What `extract_event_fast_llm` makes of a text: the title is the first non-blank line; the first date search
   * that matches the joined lines decides the dates, its groups read month-first whichever
   * search matched (see `DayRangeReadMonthFirst`); a
   * time range is appended only to dates that exist; the place is the last of the final two
   * lines that reads as one.
   */
  ghost predicate Extracted(text: string, p: Patterns, d: EventData)
    requires Arities(p)
  {
    ExtractedFromLines(NonBlankLines(text), p, d)
  }

  /** `Extracted`, stated on the text's non-blank lines. */
  ghost predicate ExtractedFromLines(lines: seq<string>, p: Patterns, d: EventData)
    requires Arities(p)
  {
    && d.title == (if lines == [] then None else Some(lines[0]))
    && (var full := FullText(lines); var k := FirstHit(DateSearches(p), full);
        (k.None? ==> d.start.None? && d.end.None?) &&
        (k.Some? ==>
          var dates := WrittenDates(DateSearches(p)[k.value](full).value); var t := p.timeRange(full);
          d.start == (if dates.0.Some? && t.Some? then Some(dates.0.value + " " + t.value[0]) else dates.0) &&
          d.end == (if dates.1.Some? && t.Some? then Some(dates.1.value + " " + t.value[1]) else dates.1)))
    && (var tail := LastTwo(lines);
        var k := LastBelow(tail, PlaceIn(if lines == [] then "" else lines[0]), |tail|);
        d.location == if k.Some? then Some(tail[k.value]) else None)
  }

  /** The extraction leaves nothing open: two data records it allows for a text are the same. */
  lemma ExtractedIsUnique(text: string, p: Patterns, d1: EventData, d2: EventData)
    requires Arities(p)
    requires Extracted(text, p, d1) && Extracted(text, p, d2)
    ensures d1 == d2
  {
  }

  /** The extraction itself, which gives the data `Extracted` describes. */
  method ExtractEventFastLlm(text: string, p: Patterns) returns (d: EventData)
    requires Arities(p)
    ensures Extracted(text, p, d)
    ensures d.end.Some? ==> d.start.Some?
  {
    var lines := NonBlankLines(text);
    d := ExtractFromLines(lines, p);
  }

  /** The extraction on the non-blank lines: the first line, dates and times, then the place. */
  method ExtractFromLines(lines: seq<string>, p: Patterns) returns (d: EventData)
    requires Arities(p)
    ensures ExtractedFromLines(lines, p, d)
    ensures d.end.Some? ==> d.start.Some?
  {
    var title: Option<string> := None;
    if lines != [] {
      title := Some(lines[0]);
    }
    var full := FullText(lines);
    var start, end := ReadDates(full, p);
    var time := p.timeRange(full);
    if time.Some? {
      start, end := WithTime(start, time.value[0]), WithTime(end, time.value[1]);
    }
    var location := LastAccepted(LastTwo(lines), PlaceIn(if lines == [] then "" else lines[0]));
    d := EventData(title, start, end, location);
  }

  /** The date loop: the first search that matches decides, its groups read by `WrittenDates`. */
  method ReadDates(full: string, p: Patterns) returns (start: Option<string>, end: Option<string>)
    requires Arities(p)
    ensures var k := FirstHit(DateSearches(p), full);
      (k.None? ==> start.None? && end.None?) &&
      (k.Some? ==> (start, end) == WrittenDates(DateSearches(p)[k.value](full).value))
  {
    start, end := None, None;
    var searches := DateSearches(p);
    for i := 0 to |searches|
      invariant forall j :: 0 <= j < i ==> searches[j](full).None?
      invariant start.None? && end.None?
    {
      var m := searches[i](full);
      if m.Some? {
        var g := m.value;
        if |g| == 4 {
          var dates := MonthFirstDates(g);
          start, end := Some(dates.0), Some(dates.1);
        } else if |g| == 3 {
          start := Some(DateText(g[0], g[1], g[2]));
        }
        assert FirstHit(searches, full) == Some(i);
        return;
      }
    }
  }

  /**
   * `a2a`: read the `text` input (empty when absent); grade the extracted fields by their
   * number. A non-string text makes the line split raise, which is answered with `ERROR`.
   */
  method A2a(task: Task, p: Patterns, latencyMs: int, evidence: seq<(string, Json)>) returns (r: Result)
    requires Arities(p)
    ensures r.metrics == Metrics(latencyMs, Cost)
    ensures var input := PlainText(task.inputs);
      (input.NotText? ==> r == Crashed(NoSplitMessage(input.value), latencyMs, Cost)) &&
      (input.Text? ==> r.error.None? && r.evidence == evidence && r.status == StatusFor(|r.data|))
    ensures Lookup(r.data, "end").Some? ==> Lookup(r.data, "start").Some?
    ensures var input := PlainText(task.inputs);
      input.Text? ==> exists d :: Extracted(input.text, p, d) && r.data == DataFields(d)
  {
    var input := PlainText(task.inputs);
    if input.NotText? {
      r := Crashed(NoSplitMessage(input.value), latencyMs, Cost);
      return;
    }
    var d := ExtractEventFastLlm(input.text, p);
    r := Answer(d, StatusFor(FieldCount(d)), latencyMs, Cost, evidence);
    assert Extracted(input.text, p, d) && r.data == DataFields(d);
  }
}
