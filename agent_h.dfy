/**
 * Provider H, "Specialized Parser": the first line is the title, one date-range and one
 * time-range search run over the joined lines, and the last line is the place unless it is
 * the title or looks like a date or time line.
 */
module AgentH {
  import opened Wrappers
  import opened Json
  import opened Text
  import opened Models
  import opened EventCommon

  /** What the provider quotes and what it reports having spent, in US dollars. */
  const Cost: real := 0.005

  /** The proposal it makes for every intent. */
  function Offer(): (p: Proposal)
    ensures p.estCostUsd == Cost && p.estLatencyMs == 100 && p.confidence == 0.65
    ensures |p.plan| == 3 && p.needs == []
  {
    NewProposal(Cost, 100, 0.65, ["1. Apply specialized domain parser",
      "2. Quick pattern extraction for structured formats", "3. Return fast structured event data"])
  }

  /** A line that mentions a month or a time of day: it holds "Nov", "Dec", "AM" or "PM". */
  predicate DateOrTimeLine(line: string) {
    Contains(line, "Nov") || Contains(line, "Dec") || Contains(line, "AM") || Contains(line, "PM")
  }

  /**
   * What `extract_event_specialized` makes of a text: the title is the first non-blank line; a date range sets
   * start and end together and a time range is appended to them; with more than one line,
   * the last is the place unless it is the title or a date or time line.
   */
  ghost predicate Extracted(text: string, p: Patterns, d: EventData)
    requires Groups(p.monthRange, 4) && Groups(p.timeRange, 2)
  {
    && (var lines := NonBlankLines(text);
        d.title == if lines == [] then None else Some(lines[0]))
    && (var full := FullText(NonBlankLines(text));
        (d.start.Some? <==> p.monthRange(full).Some?) && (d.end.Some? <==> d.start.Some?) &&
        (p.monthRange(full).Some? ==>
          var g := p.monthRange(full).value; var t := p.timeRange(full);
          d.start == Some(if t.Some? then DateText(g[0], g[1], g[3]) + " " + t.value[0] else DateText(g[0], g[1], g[3])) &&
          d.end == Some(if t.Some? then DateText(g[0], g[2], g[3]) + " " + t.value[1] else DateText(g[0], g[2], g[3]))))
    && (var lines := NonBlankLines(text);
        d.location.Some? <==> |lines| > 1 && lines[|lines| - 1] != lines[0] && !DateOrTimeLine(lines[|lines| - 1]))
    && (var lines := NonBlankLines(text);
        d.location.Some? ==> d.location.value == lines[|lines| - 1] && d.title.Some? && d.location.value != d.title.value)
  }

  /** The extraction leaves nothing open: two data records it allows for a text are the same. */
  lemma ExtractedIsUnique(text: string, p: Patterns, d1: EventData, d2: EventData)
    requires Groups(p.monthRange, 4) && Groups(p.timeRange, 2)
    requires Extracted(text, p, d1) && Extracted(text, p, d2)
    ensures d1 == d2
  {
  }

  /** The extraction itself, which gives the data `Extracted` describes. */
  method ExtractEventSpecialized(text: string, p: Patterns) returns (d: EventData)
    requires Groups(p.monthRange, 4) && Groups(p.timeRange, 2)
    ensures Extracted(text, p, d)
    ensures d.location.Some? ==>
      !Contains(d.location.value, "Nov") && !Contains(d.location.value, "Dec") &&
      !Contains(d.location.value, "AM") && !Contains(d.location.value, "PM")
  {
    d := NoData;
    var lines := NonBlankLines(text);
    if lines != [] {
      d := d.(title := Some(lines[0]));
    }
    var full := FullText(lines);
    var start, end := ReadRangeAndTimes(full, p);
    d := d.(start := start, end := end);
    if |lines| > 1 {
      var lastLine := lines[|lines| - 1];
      if lastLine != "" && lastLine != TitleOrEmpty(d) {
        if !Contains(lastLine, "Nov") && !Contains(lastLine, "Dec") && !Contains(lastLine, "AM") && !Contains(lastLine, "PM") {
          d := d.(location := Some(lastLine));
        }
      }
    }
  }

  /**
   * `a2a`: read the `text` input (empty when absent); grade the extracted fields by their
   * number. A non-string text makes the line split raise, which is answered with `ERROR`.
   */
  method A2a(task: Task, p: Patterns, latencyMs: int, evidence: seq<(string, Json)>) returns (r: Result)
    requires Groups(p.monthRange, 4) && Groups(p.timeRange, 2)
    ensures r.metrics == Metrics(latencyMs, Cost)
    ensures var input := PlainText(task.inputs);
      (input.NotText? ==> r == Crashed(NoSplitMessage(input.value), latencyMs, Cost)) &&
      (input.Text? ==> r.error.None? && r.evidence == evidence && r.status == StatusFor(|r.data|))
    ensures Lookup(r.data, "start").Some? <==> Lookup(r.data, "end").Some?
    ensures Lookup(r.data, "location").Some? ==> Lookup(r.data, "title").Some? && Lookup(r.data, "location") != Lookup(r.data, "title")
    ensures var input := PlainText(task.inputs);
      input.Text? ==> exists d :: Extracted(input.text, p, d) && r.data == DataFields(d)
  {
    var input := PlainText(task.inputs);
    if input.NotText? {
      r := Crashed(NoSplitMessage(input.value), latencyMs, Cost);
      return;
    }
    var d := ExtractEventSpecialized(input.text, p);
    r := Answer(d, StatusFor(FieldCount(d)), latencyMs, Cost, evidence);
    assert Extracted(input.text, p, d) && r.data == DataFields(d);
  }
}
