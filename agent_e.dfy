/**
 * Provider E, "High Accuracy LLM": several date and time searches with fallbacks, a title
 * chosen by length, and a place read after words such as "in" or "at", from a short
 * capitalised line, or from the last line.
 */
module AgentE {
  import opened Wrappers
  import opened Json
  import opened Text
  import opened Models
  import opened EventCommon

  /** What the provider quotes and what it reports having spent, in US dollars. */
  const Cost: real := 0.10

  /** The proposal it makes for every intent. */
  function Offer(): (p: Proposal)
    ensures p.estCostUsd == Cost && p.estLatencyMs == 4000 && p.confidence == 0.95
    ensures |p.plan| == 4 && p.needs == []
  {
    NewProposal(Cost, 4000, 0.95, ["1. Perform deep context analysis with premium LLM",
      "2. Apply multiple extraction strategies with fallbacks", "3. Validate and refine extracted data",
      "4. Return high-confidence structured event data"])
  }

  const Months: set<string> := {"Jan", "Feb", "Mar", "Apr", "May", "Jun", "Jul", "Aug", "Sep", "Oct", "Nov", "Dec"}

  /** The words after which the rest of a line is read as the place (all lower case). */
  const Indicators: seq<Separator> := ["in", "at", "location", "venue", "address"]

  /** Lines that are never taken for a standalone place. */
  const CommonWords: set<string> := {"Global", "Scoop", "Hackathon", "Nov", "Dec", "AM", "PM"}

  // ---------------------------------------------------------------- dates and times

  /** The date searches in the order they are tried. */
  function DateSearches(p: Patterns): seq<Search> {
    [p.monthRange, p.monthDay, p.upTo9MonthRange, p.numericDate]
  }

  /** The time searches in the order they are tried. */
  function TimeSearches(p: Patterns): seq<Search> {
    [p.looseTimeRange, p.clockRange, p.clockTime]
  }

  /** A match whose groups are read: four or three groups, the first a three-letter month name. */
  predicate Accepted(g: seq<string>) {
    (|g| == 4 || |g| == 3) && g[0] in Months
  }

  /** Search `i` matches `s` and its groups are read. */
  predicate AcceptedAt(searches: seq<Search>, s: string, i: nat) {
    i < |searches| && searches[i](s).Some? && Accepted(searches[i](s).value)
  }

  /** The first search from `i` whose match is read; matches that are not read are passed over. */
  function FirstAccepted(searches: seq<Search>, s: string, i: nat): (r: Option<nat>)
    requires i <= |searches|
    ensures r.Some? ==> i <= r.value < |searches| && AcceptedAt(searches, s, r.value)
    ensures r.Some? ==> forall j :: i <= j < r.value ==> !AcceptedAt(searches, s, j)
    ensures r.None? ==> forall j :: i <= j < |searches| ==> !AcceptedAt(searches, s, j)
    decreases |searches| - i
  {
    if i == |searches| then None
    else if AcceptedAt(searches, s, i) then Some(i)
    else FirstAccepted(searches, s, i + 1)
  }

  lemma FirstAcceptedStops(searches: seq<Search>, s: string, i: nat, k: nat)
    requires i <= k && AcceptedAt(searches, s, k)
    requires forall j :: i <= j < k ==> !AcceptedAt(searches, s, j)
    ensures FirstAccepted(searches, s, i) == Some(k)
  {
    var r := FirstAccepted(searches, s, i);
    assert r.Some? && r.value <= k;
  }

  /** The dates of a read match: a range gives both, a single date only the start. */
  function AcceptedDates(g: seq<string>): (r: (Option<string>, Option<string>))
    requires Accepted(g)
    ensures r.0.Some? && (r.1.Some? <==> |g| == 4)
    ensures StartsWith(r.0.value, g[0] + " ") && (r.1.Some? ==> StartsWith(r.1.value, g[0] + " "))
  {
    if |g| == 4 then
      var dates := MonthFirstDates(g);
      (Some(dates.0), Some(dates.1))
    else
      var start := DateText(g[0], g[1], g[2]);
      assert start[..|g[0] + " "|] == g[0] + " ";
      (Some(start), None)
  }

  // ---------------------------------------------------------------- place

  /** Two to four words, every word that starts with a letter capitalised, not common, not the title. */
  predicate Standalone(line: string, title: string) {
    var words := Words(line);
    && 2 <= |words| <= 4
    && (forall w :: 0 <= w < |words| && IsAlpha(words[w][0]) ==> IsUpper(words[w][0]))
    && line !in CommonWords
    && line != title
  }

  function StandaloneIn(title: string): string -> bool {
    line => Standalone(line, title)
  }

  /** The place the indicators give for a line. */
  function IndicatorOf(): string -> Option<string> {
    line => IndicatorPlace(line, Indicators, 0)
  }

  /**
   * One line of the place loop: a hit of `indicator` replaces the place; a line `standalone`
   * accepts is taken only while there is none.
   */
  function Step(location: Option<string>, line: string, indicator: string -> Option<string>,
                standalone: string -> bool): (r: Option<string>)
    ensures indicator(line).Some? ==> r == indicator(line)
    ensures indicator(line).None? && location.Some? ==> r == location
    ensures r.None? ==> location.None?
  {
    var hit := indicator(line);
    var location' := if hit.Some? then hit else location;
    if standalone(line) && location'.None? then Some(line) else location'
  }

  /** The place after the first `n` lines. */
  function PlaceAfter(lines: seq<string>, indicator: string -> Option<string>, standalone: string -> bool,
                      n: nat): Option<string>
    requires n <= |lines|
  {
    if n == 0 then None else Step(PlaceAfter(lines, indicator, standalone, n - 1), lines[n - 1], indicator, standalone)
  }

  /** With no place found and more than one line, a last line of at most four words. */
  function WithFallback(lines: seq<string>, location: Option<string>): (r: Option<string>)
    ensures location.Some? ==> r == location
    ensures r.Some? && location.None? ==> |lines| > 1 && r.value == lines[|lines| - 1] && |Words(r.value)| <= 4
  {
    if location.None? && |lines| > 1 && lines[|lines| - 1] != "" && |Words(lines[|lines| - 1])| <= 4 then
      Some(lines[|lines| - 1])
    else location
  }

  /** A place, once found, survives every later line that has no indicator hit. */
  lemma {:induction false} PlaceKept(lines: seq<string>, indicator: string -> Option<string>,
                                     standalone: string -> bool, n: nat, m: nat)
    requires n <= m <= |lines| && PlaceAfter(lines, indicator, standalone, n).Some?
    requires forall j :: n <= j < m ==> indicator(lines[j]).None?
    ensures PlaceAfter(lines, indicator, standalone, m) == PlaceAfter(lines, indicator, standalone, n)
    decreases m - n
  {
    if m > n {
      PlaceKept(lines, indicator, standalone, n, m - 1);
    }
  }

  /** The last line with an indicator hit decides the place, whatever comes after it. */
  lemma LastIndicatorWins(lines: seq<string>, indicator: string -> Option<string>,
                          standalone: string -> bool, k: nat, m: nat)
    requires k < m <= |lines| && indicator(lines[k]).Some?
    requires forall j :: k < j < m ==> indicator(lines[j]).None?
    ensures PlaceAfter(lines, indicator, standalone, m) == indicator(lines[k])
  {
    assert PlaceAfter(lines, indicator, standalone, k + 1) == indicator(lines[k]);
    PlaceKept(lines, indicator, standalone, k + 1, m);
  }

  /**
   * Indicators are matched as substrings: the demo title holds "at" inside "Hackathon", so
   * the line's place is "hon" (and, no later line having an indicator, the demo's place).
   */
  lemma HackathonLineReadsHon(line: string)
    requires line == DemoTitle
    ensures IndicatorPlace(line, Indicators, 0) == Some("hon")
  {
    DemoTitleReadsHon(line, Indicators);
  }

  // ---------------------------------------------------------------- extraction

  /**
   * What `extract_event_premium_llm` makes of a text: the title is the first title line; the first date search
   * whose match is read decides the dates; the first time search that matches appends its
   * times to the dates that exist (a single time to the start only); the place is the one
   * the place loop leaves, with the last-line fallback.
   */
  ghost predicate Extracted(text: string, p: Patterns, d: EventData)
  {
    ExtractedFromLines(NonBlankLines(text), p, d)
  }

  /** `Extracted`, stated on the text's non-blank lines. */
  ghost predicate ExtractedFromLines(lines: seq<string>, p: Patterns, d: EventData)
  {
    && (var k := FirstFrom(lines, TitleLine, 0);
        d.title == if k.Some? then Some(lines[k.value]) else None)
    && (var full := FullText(lines); var k := FirstAccepted(DateSearches(p), full, 0);
        var dates := if k.Some? then AcceptedDates(DateSearches(p)[k.value](full).value) else (None, None);
        var m := FirstGroups(TimeSearches(p), full);
        d.start == (if m.Some? && |m.value| >= 1 then WithTime(dates.0, m.value[0]) else dates.0) &&
        d.end == (if m.Some? && |m.value| >= 2 then WithTime(dates.1, m.value[1]) else dates.1))
    && d.location == WithFallback(lines, PlaceAfter(lines, IndicatorOf(), StandaloneIn(TitleOrEmpty(d)), |lines|))
  }

  /** The extraction leaves nothing open: two data records it allows for a text are the same. */
  lemma ExtractedIsUnique(text: string, p: Patterns, d1: EventData, d2: EventData)
    requires Extracted(text, p, d1) && Extracted(text, p, d2)
    ensures d1 == d2
  {
  }

  /** The extraction itself, which gives the data `Extracted` describes. */
  method ExtractEventPremiumLlm(text: string, p: Patterns) returns (d: EventData)
    ensures Extracted(text, p, d)
    ensures d.end.Some? ==> d.start.Some?
  {
    var lines := NonBlankLines(text);
    d := ExtractFromLines(lines, p);
  }

  /** The extraction on the non-blank lines: title, dates, times, then the place. */
  method ExtractFromLines(lines: seq<string>, p: Patterns) returns (d: EventData)
    ensures ExtractedFromLines(lines, p, d)
    ensures d.end.Some? ==> d.start.Some?
  {
    var full := FullText(lines);
    var title := ReadTitle(lines);
    var start, end := ReadDates(full, p);
    start, end := ReadTimes(full, p, start, end);
    var location := ReadPlace(lines, title.GetOr(""));
    location := FallBack(lines, location);
    d := EventData(title, start, end, location);
  }

  /** The fallback step: with no place found, a short last line is taken as the place. */
  method FallBack(lines: seq<string>, location0: Option<string>) returns (location: Option<string>)
    ensures location == WithFallback(lines, location0)
  {
    location := location0;
    if location.None? && |lines| > 1 {
      var lastLine := lines[|lines| - 1];
      if lastLine != "" && |Words(lastLine)| <= 4 {
        location := Some(lastLine);
      }
    }
  }

  /** The date loop: a match whose first group is not a month name is passed over. */
  method ReadDates(full: string, p: Patterns) returns (start: Option<string>, end: Option<string>)
    ensures var k := FirstAccepted(DateSearches(p), full, 0);
      (start, end) == if k.Some? then AcceptedDates(DateSearches(p)[k.value](full).value) else (None, None)
  {
    start, end := None, None;
    var searches := DateSearches(p);
    for i := 0 to |searches|
      invariant forall j :: 0 <= j < i ==> !AcceptedAt(searches, full, j)
    {
      var m := searches[i](full);
      if m.Some? {
        var g := m.value;
        if |g| == 4 && g[0] in Months {
          start, end := Some(DateText(g[0], g[1], g[3])), Some(DateText(g[0], g[2], g[3]));
          FirstAcceptedStops(searches, full, 0, i);
          return;
        } else if |g| == 3 {
          if g[0] in Months {
            start := Some(DateText(g[0], g[1], g[2]));
            FirstAcceptedStops(searches, full, 0, i);
            return;
          }
        }
      }
    }
  }

  /** The time loop: the first search that matches appends its times, then the loop stops. */
  method ReadTimes(full: string, p: Patterns, start0: Option<string>, end0: Option<string>)
    returns (start: Option<string>, end: Option<string>)
    ensures var m := FirstGroups(TimeSearches(p), full);
      start == (if m.Some? && |m.value| >= 1 then WithTime(start0, m.value[0]) else start0) &&
      end == (if m.Some? && |m.value| >= 2 then WithTime(end0, m.value[1]) else end0)
  {
    start, end := start0, end0;
    var searches := TimeSearches(p);
    for i := 0 to |searches|
      invariant forall j :: 0 <= j < i ==> searches[j](full).None?
    {
      var m := searches[i](full);
      if m.Some? {
        var times := m.value;
        if |times| >= 2 {
          start, end := WithTime(start, times[0]), WithTime(end, times[1]);
        } else if |times| == 1 {
          start := WithTime(start, times[0]);
        }
        assert FirstHit(searches, full) == Some(i);
        return;
      }
    }
  }

  /** The place loop over every line, in order. */
  method ReadPlace(lines: seq<string>, title: string) returns (location: Option<string>)
    ensures location == PlaceAfter(lines, IndicatorOf(), StandaloneIn(title), |lines|)
  {
    location := None;
    for i := 0 to |lines|
      invariant location == PlaceAfter(lines, IndicatorOf(), StandaloneIn(title), i)
    {
      var line := lines[i];
      var hit := ReadIndicator(line, Indicators);
      assert IndicatorOf()(line) == hit;
      assert StandaloneIn(title)(line) == Standalone(line, title);
      if hit.Some? {
        location := hit;
      }
      if Standalone(line, title) && location.None? {
        location := Some(line);
      }
    }
  }

  /**
   * `a2a`: read the `text` input (empty when absent); grade the extracted fields strictly:
   * `OK` from three, `PARTIAL` from two. A non-string text makes the line split raise,
   * which is answered with `ERROR`.
   */
  method A2a(task: Task, p: Patterns, latencyMs: int, evidence: seq<(string, Json)>) returns (r: Result)
    ensures r.metrics == Metrics(latencyMs, Cost)
    ensures var input := PlainText(task.inputs);
      (input.NotText? ==> r == Crashed(NoSplitMessage(input.value), latencyMs, Cost)) &&
      (input.Text? ==> r.error.None? && r.evidence == evidence && r.status == StrictStatusFor(|r.data|))
    ensures Lookup(r.data, "end").Some? ==> Lookup(r.data, "start").Some?
    ensures var input := PlainText(task.inputs);
      input.Text? ==> exists d :: Extracted(input.text, p, d) && r.data == DataFields(d)
  {
    var input := PlainText(task.inputs);
    if input.NotText? {
      r := Crashed(NoSplitMessage(input.value), latencyMs, Cost);
      return;
    }
    var d := ExtractEventPremiumLlm(input.text, p);
    r := Answer(d, StrictStatusFor(FieldCount(d)), latencyMs, Cost, evidence);
    assert Extracted(input.text, p, d) && r.data == DataFields(d);
  }
}
