/**
 * Provider A, "OCR+Regex": reads an event's title, dates, times and place straight off the
 * text (OCR output or the supplied text) with regular-expression searches.
 */
module AgentA {
  import opened Wrappers
  import opened Json
  import opened Text
  import opened Models
  import opened EventCommon

  /** What the provider quotes and what it reports having spent, in US dollars. */
  const Cost: real := 0.01

  /** The capitalised words that are never taken for a place. */
  const NotPlaces: set<string> := {"Global", "Scoop", "Hackathon"}

  /** The proposal it makes for every intent. */
  function Offer(): (p: Proposal)
    ensures p.estCostUsd == Cost && p.estLatencyMs == 500 && p.confidence == 0.75
    ensures |p.plan| == 3 && p.needs == []
  {
    NewProposal(Cost, 500, 0.75, ["1. Perform OCR on input image/text", "2. Apply regex patterns to extract event fields",
      "3. Return structured event data"])
  }

  /**
   * The first line with at least one character, which is what a multi-line search for
   * "one or more characters up to the end of a line" finds first.
   */
  function FirstFilledLine(lines: seq<string>): (r: Option<string>)
    ensures r.Some? <==> exists i :: 0 <= i < |lines| && lines[i] != ""
    ensures r.Some? ==> exists i ::
      && 0 <= i < |lines|
      && lines[i] == r.value != ""
      && forall j :: 0 <= j < i ==> lines[j] == ""
  {
    if lines == [] then None
    else if lines[0] != "" then Some(lines[0])
    else
      var rest := FirstFilledLine(lines[1..]);
      assert forall i :: 1 <= i < |lines| ==> lines[1..][i - 1] == lines[i];
      rest
  }

  /**
   * What `extract_event_regex` makes of a text: the title is the first filled line,
   * stripped; a date range sets start and end together; a time range is appended to the
   * dates only when they exist; a capitalised run of words ending a line is the place unless
   * it is a common word. Every search runs over the whole text.
   */
  ghost predicate Extracted(text: string, p: Patterns, d: EventData)
    requires Groups(p.monthRange, 4) && Groups(p.timeRange, 2) && Groups(p.properNounLine, 1)
  {
    && (var line := FirstFilledLine(SplitOn(text, "\n"));
        d.title == if line.Some? then Some(Strip(line.value)) else None)
    && (d.start.Some? <==> p.monthRange(text).Some?)
    && (d.end.Some? <==> p.monthRange(text).Some?)
    && (p.monthRange(text).Some? ==>
         var g := p.monthRange(text).value; var t := p.timeRange(text);
         d.start == Some(if t.Some? then DateText(g[0], g[1], g[3]) + " " + t.value[0] else DateText(g[0], g[1], g[3])) &&
         d.end == Some(if t.Some? then DateText(g[0], g[2], g[3]) + " " + t.value[1] else DateText(g[0], g[2], g[3])))
    && (d.location.Some? <==>
         p.properNounLine(text).Some? && Strip(p.properNounLine(text).value[0]) !in NotPlaces)
    && (d.location.Some? ==> d.location.value == Strip(p.properNounLine(text).value[0]))
  }

  /** The extraction leaves nothing open: two data records it allows for a text are the same. */
  lemma ExtractedIsUnique(text: string, p: Patterns, d1: EventData, d2: EventData)
    requires Groups(p.monthRange, 4) && Groups(p.timeRange, 2) && Groups(p.properNounLine, 1)
    requires Extracted(text, p, d1) && Extracted(text, p, d2)
    ensures d1 == d2
  {
  }

  /** `extract_event_regex`, field by field; start and end come together and the place is never a common word. */
  method ExtractEventRegex(text: string, p: Patterns) returns (d: EventData)
    requires Groups(p.monthRange, 4) && Groups(p.timeRange, 2) && Groups(p.properNounLine, 1)
    ensures Extracted(text, p, d)
    ensures d.end.Some? <==> d.start.Some?
    ensures d.location.Some? ==> d.location.value !in NotPlaces
  {
    d := NoData;
    var titleLine := FirstFilledLine(SplitOn(text, "\n"));
    if titleLine.Some? {
      d := d.(title := Some(Strip(titleLine.value)));
    }
    var date := p.monthRange(text);
    if date.Some? {
      var g := date.value;
      d := d.(start := Some(DateText(g[0], g[1], g[3])), end := Some(DateText(g[0], g[2], g[3])));
    }
    var time := p.timeRange(text);
    if time.Some? {
      d := d.(start := WithTime(d.start, time.value[0]), end := WithTime(d.end, time.value[1]));
    }
    var place := p.properNounLine(text);
    if place.Some? {
      var potential := Strip(place.value[0]);
      if potential !in NotPlaces {
        d := d.(location := Some(potential));
      }
    }
  }

  /** The TypeError a regular-expression search raises when handed something other than a string. */
  function NotStringMessage(v: Json): string {
    "expected string or bytes-like object, got '" + PyTypeName(v) + "'"
  }

  /**
   * `a2a`: read a truthy `text` input, or else the OCR of the image (`ocr`, None when OCR is
   * unavailable or fails, which reads the demo text); grade the extracted fields by their
   * number. A non-string text makes the extraction raise, which is answered with `ERROR`.
   */
  method A2a(task: Task, p: Patterns, ocr: Option<string>, latencyMs: int, evidence: seq<(string, Json)>)
    returns (r: Result)
    requires Groups(p.monthRange, 4) && Groups(p.timeRange, 2) && Groups(p.properNounLine, 1)
    ensures r.metrics == Metrics(latencyMs, Cost)
    ensures var input := TruthyText(task.inputs, ocr.GetOr(DummyOcrText));
      (input.NotText? ==> r == Crashed(NotStringMessage(input.value), latencyMs, Cost)) &&
      (input.Text? ==> r.error.None? && r.evidence == evidence && r.status == StatusFor(|r.data|))
    ensures var input := TruthyText(task.inputs, ocr.GetOr(DummyOcrText));
      input.Text? ==> exists d :: Extracted(input.text, p, d) && r.data == DataFields(d)
    ensures Lookup(r.data, "start").Some? <==> Lookup(r.data, "end").Some?
  {
    var input := TruthyText(task.inputs, ocr.GetOr(DummyOcrText));
    if input.NotText? {
      r := Crashed(NotStringMessage(input.value), latencyMs, Cost);
      return;
    }
    var d := ExtractEventRegex(input.text, p);
    r := Answer(d, StatusFor(FieldCount(d)), latencyMs, Cost, evidence);
    assert Extracted(input.text, p, d) && r.data == DataFields(d);
  }
}
