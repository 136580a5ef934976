/**
 * Provider F, "Local Model": the first line is the title, one date-range and one time-range
 * search run over the joined lines, and the last line is the place unless it is a common
 * word or the title.
 */
module AgentF {
  import opened Wrappers
  import opened Json
  import opened Text
  import opened Models
  import opened EventCommon

  /** What the provider quotes and what it reports having spent, in US dollars. */
  const Cost: real := 0.001

  /** Last lines that are never taken for a place. */
  const CommonWords: set<string> := {"Nov", "Dec", "Jan", "AM", "PM", "Global", "Scoop", "Hackathon"}

  /** The proposal it makes for every intent. */
  function Offer(): (p: Proposal)
    ensures p.estCostUsd == Cost && p.estLatencyMs == 8000 && p.confidence == 0.70
    ensures |p.plan| == 3 && p.needs == []
  {
    NewProposal(Cost, 8000, 0.70, ["1. Process input with local ML model", "2. Apply basic pattern extraction",
      "3. Return structured event data"])
  }

  /**
   * What `extract_event_local_model` makes of a text: the title is the first non-blank line; a date range sets
   * start and end together and a time range is appended to them; with more than one line,
   * the last is the place unless it is a common word or the title.
   */
  ghost predicate Extracted(text: string, p: Patterns, d: EventData)
    requires Groups(p.monthRange, 4) && Groups(p.timeRange, 2)
  {
    ExtractedFromLines(NonBlankLines(text), p, d)
  }

  /** `Extracted`, stated on the text's non-blank lines. */
  ghost predicate ExtractedFromLines(lines: seq<string>, p: Patterns, d: EventData)
    requires Groups(p.monthRange, 4) && Groups(p.timeRange, 2)
  {
    && d.title == (if lines == [] then None else Some(lines[0]))
    && (var full := FullText(lines);
        (d.start.Some? <==> p.monthRange(full).Some?) && (d.end.Some? <==> d.start.Some?) &&
        (p.monthRange(full).Some? ==>
          var g := p.monthRange(full).value; var t := p.timeRange(full);
          d.start == Some(if t.Some? then DateText(g[0], g[1], g[3]) + " " + t.value[0] else DateText(g[0], g[1], g[3])) &&
          d.end == Some(if t.Some? then DateText(g[0], g[2], g[3]) + " " + t.value[1] else DateText(g[0], g[2], g[3]))))
    && (d.location.Some? <==> |lines| > 1 && lines[|lines| - 1] !in CommonWords && lines[|lines| - 1] != lines[0])
    && (d.location.Some? ==> d.location.value == lines[|lines| - 1] && d.title.Some? && d.location.value != d.title.value)
  }

  /** The extraction leaves nothing open: two data records it allows for a text are the same. */
  lemma ExtractedIsUnique(text: string, p: Patterns, d1: EventData, d2: EventData)
    requires Groups(p.monthRange, 4) && Groups(p.timeRange, 2)
    requires Extracted(text, p, d1) && Extracted(text, p, d2)
    ensures d1 == d2
  {
  }

  /** The extraction itself, which gives the data `Extracted` describes. */
  method ExtractEventLocalModel(text: string, p: Patterns) returns (d: EventData)
    requires Groups(p.monthRange, 4) && Groups(p.timeRange, 2)
    ensures Extracted(text, p, d)
  {
    var lines := NonBlankLines(text);
    d := ExtractFromLines(lines, p);
  }

  /** The extraction on the non-blank lines: the first line, the range, then the last line. */
  method ExtractFromLines(lines: seq<string>, p: Patterns) returns (d: EventData)
    requires Groups(p.monthRange, 4) && Groups(p.timeRange, 2)
    ensures ExtractedFromLines(lines, p, d)
  {
    var title: Option<string> := None;
    if lines != [] {
      title := Some(lines[0]);
    }
    var full := FullText(lines);
    var start, end := ReadRangeAndTimes(full, p);
    var location: Option<string> := None;
    if |lines| > 1 {
      var lastLine := lines[|lines| - 1];
      if lastLine !in CommonWords && lastLine != title.GetOr("") {
        location := Some(lastLine);
      }
    }
    d := EventData(title, start, end, location);
  }

  /**
   * `a2a`: read the `text` input (empty when absent); grade the extracted fields by their
   * number. A non-string text makes the line split raise, which is answered with `ERROR`.
   */
  method A2a(task: Task, p: Patterns, latencyMs: int, evidence: seq<(string, Json)>) returns (r: Result)
    requires Groups(p.monthRange, 4) && Groups(p.timeRange, 2)
    ensures r.metrics == Metrics(latencyMs, Cost)
    ensures var input := PlainText(task.inputs);
      (input.NotText? ==> r == Crashed(NoSplitMessage(input.value), latencyMs, Cost)) &&
      (input.Text? ==> r.error.None? && r.evidence == evidence && r.status == StatusFor(|r.data|))
    ensures Lookup(r.data, "start").Some? <==> Lookup(r.data, "end").Some?
    ensures Lookup(r.data, "location").Some? ==> Lookup(r.data, "title").Some? && Lookup(r.data, "location") != Lookup(r.data, "title")
    ensures var input := PlainText(task.inputs);
      input.Text? ==> exists d :: Extracted(input.text, p, d) && r.data == DataFields(d)
  {
    var input := PlainText(task.inputs);
    if input.NotText? {
      r := Crashed(NoSplitMessage(input.value), latencyMs, Cost);
      return;
    }
    var d := ExtractEventLocalModel(input.text, p);
    r := Answer(d, StatusFor(FieldCount(d)), latencyMs, Cost, evidence);
    assert Extracted(input.text, p, d) && r.data == DataFields(d);
  }
}
