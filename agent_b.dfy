/**
 * Provider B, "OCR+LLM": a heuristic reading of the non-blank lines that accepts both
 * month-first and day-first date ranges and looks for a short capitalised line as the place.
 */
module AgentB {
  import opened Wrappers
  import opened Json
  import opened Text
  import opened Models
  import opened EventCommon

  /** What the provider quotes and what it reports having spent, in US dollars. */
  const Cost: real := 0.05

  /** Lines that are never taken for a place. */
  const CommonWords: set<string> := {"Global", "Scoop", "Hackathon", "Nov", "AM", "PM", "2025"}

  /** The proposal it makes for every intent. */
  function Offer(): (p: Proposal)
    ensures p.estCostUsd == Cost && p.estLatencyMs == 2000 && p.confidence == 0.90
    ensures |p.plan| == 3 && p.needs == []
  {
    NewProposal(Cost, 2000, 0.90, ["1. Perform OCR on input image/text",
      "2. Apply LLM-based extraction with context understanding", "3. Return structured event data with high confidence"])
  }

  /** The date searches, in the order they are tried. */
  function DateSearches(p: Patterns): seq<Search> {
    [p.longMonthRange, p.longDayRange]
  }

  /**
   * A line read as a place: at most three words which, joined by single spaces, are not a
   * common word and start with an upper-case letter (the joined words of a non-blank line
   * are never empty).
   */
  predicate ShortCapitalLine(line: string) {
    var words := Words(line);
    var potential := Join(words, " ");
    |words| <= 3 && potential !in CommonWords && potential != [] && IsUpper(potential[0])
  }

  /**
   * On a non-blank line the joined words are never empty and start with the line's first
   * character, so the place test's look at their first character cannot fail and tests the line's.
   */
  lemma PlaceTestSeesFirstChar(line: string)
    requires line != "" && !IsSpace(line[0])
    ensures Join(Words(line), " ") != [] && Join(Words(line), " ")[0] == line[0]
    ensures ShortCapitalLine(line) <==>
      |Words(line)| <= 3 && Join(Words(line), " ") !in CommonWords && IsUpper(line[0])
  {
    FilledHasWords(line);
    JoinHead(Words(line), " ");
  }

  /**
   * What `extract_event_llm` makes of a text: the title is the first non-blank line; the first date search that
   * matches the joined lines decides the dates, a letter-first match read month-first and
   * any other day-first; a time range is appended only to dates that exist; the place is the
   * last short capitalised line, or else the last line unless it is a common word.
   */
  ghost predicate Extracted(text: string, p: Patterns, d: EventData)
    requires Groups(p.timeRange, 2)
  {
    && (var lines := NonBlankLines(text);
        d.title == if lines == [] then None else Some(lines[0]))
    && (var m := FirstGroups(DateSearches(p), FullText(NonBlankLines(text)));
        d.start.Some? <==> m.Some? && |m.value| == 4)
    && (d.end.Some? <==> d.start.Some?)
    && (var full := FullText(NonBlankLines(text)); var m := FirstGroups(DateSearches(p), full);
        m.Some? && |m.value| == 4 ==>
          var dates := if AllAlpha(m.value[0]) then MonthFirstDates(m.value) else DayFirstDates(m.value);
          var t := p.timeRange(full);
          d.start == Some(if t.Some? then dates.0 + " " + t.value[0] else dates.0) &&
          d.end == Some(if t.Some? then dates.1 + " " + t.value[1] else dates.1))
    && (var lines := NonBlankLines(text); var k := LastBelow(lines, ShortCapitalLine, |lines|);
        (k.Some? ==> d.location == Some(Join(Words(lines[k.value]), " "))) &&
        (k.None? ==> d.location == if lines != [] && lines[|lines| - 1] !in CommonWords then Some(lines[|lines| - 1]) else None))
  }

  /** The extraction leaves nothing open: two data records it allows for a text are the same. */
  lemma ExtractedIsUnique(text: string, p: Patterns, d1: EventData, d2: EventData)
    requires Groups(p.timeRange, 2)
    requires Extracted(text, p, d1) && Extracted(text, p, d2)
    ensures d1 == d2
  {
  }

  /** The extraction itself, which gives the data `Extracted` describes. */
  method ExtractEventLlm(text: string, p: Patterns) returns (d: EventData)
    requires Groups(p.timeRange, 2)
    ensures Extracted(text, p, d)
    ensures d.end.Some? <==> d.start.Some?
  {
    d := NoData;
    var lines := NonBlankLines(text);
    if lines != [] {
      d := d.(title := Some(lines[0]));
    }
    var full := FullText(lines);
    var start, end := ReadDates(full, p);
    d := d.(start := start, end := end);
    var time := p.timeRange(full);
    if time.Some? {
      d := d.(start := WithTime(d.start, time.value[0]), end := WithTime(d.end, time.value[1]));
    }
    var location := ReadPlace(lines);
    d := d.(location := location);
  }

  /** The date loop: the first search that matches decides, and a four-group match sets both dates. */
  method ReadDates(full: string, p: Patterns) returns (start: Option<string>, end: Option<string>)
    ensures var m := FirstGroups(DateSearches(p), full);
      (start.Some? <==> m.Some? && |m.value| == 4) && (end.Some? <==> start.Some?)
    ensures var m := FirstGroups(DateSearches(p), full);
      m.Some? && |m.value| == 4 ==>
        var dates := if AllAlpha(m.value[0]) then MonthFirstDates(m.value) else DayFirstDates(m.value);
        start == Some(dates.0) && end == Some(dates.1)
  {
    start, end := None, None;
    var searches := DateSearches(p);
    for i := 0 to |searches|
      invariant forall j :: 0 <= j < i ==> searches[j](full).None?
      invariant start.None? && end.None?
    {
      var m := searches[i](full);
      if m.Some? {
        if |m.value| == 4 {
          var dates := if AllAlpha(m.value[0]) then MonthFirstDates(m.value) else DayFirstDates(m.value);
          start, end := Some(dates.0), Some(dates.1);
        }
        assert FirstHit(searches, full) == Some(i);
        return;
      }
    }
  }

  /**
   * The place loop over the lines from the last, which keeps the joined words of the first
   * short capitalised line it meets, then the last-line fallback.
   */
  method ReadPlace(lines: seq<string>) returns (location: Option<string>)
    ensures var k := LastBelow(lines, ShortCapitalLine, |lines|);
      (k.Some? ==> location == Some(Join(Words(lines[k.value]), " "))) &&
      (k.None? ==> location == if lines != [] && lines[|lines| - 1] !in CommonWords then Some(lines[|lines| - 1]) else None)
  {
    var found := LastAccepted(lines, ShortCapitalLine);
    if found.Some? {
      location := Some(Join(Words(found.value), " "));
    } else if lines != [] && lines[|lines| - 1] !in CommonWords {
      location := Some(lines[|lines| - 1]);
    } else {
      location := None;
    }
  }

  /**
   * `a2a`: read a truthy `text` input, or else the OCR of the image (`ocr`, None when OCR is
   * unavailable or fails, which reads the demo text); grade the extracted fields by their
   * number. A non-string text makes the line split raise, which is answered with `ERROR`.
   */
  method A2a(task: Task, p: Patterns, ocr: Option<string>, latencyMs: int, evidence: seq<(string, Json)>)
    returns (r: Result)
    requires Groups(p.timeRange, 2)
    ensures r.metrics == Metrics(latencyMs, Cost)
    ensures var input := TruthyText(task.inputs, ocr.GetOr(DummyOcrText));
      (input.NotText? ==> r == Crashed(NoSplitMessage(input.value), latencyMs, Cost)) &&
      (input.Text? ==> r.error.None? && r.evidence == evidence && r.status == StatusFor(|r.data|))
    ensures Lookup(r.data, "start").Some? <==> Lookup(r.data, "end").Some?
    ensures var input := TruthyText(task.inputs, ocr.GetOr(DummyOcrText));
      input.Text? ==> exists d :: Extracted(input.text, p, d) && r.data == DataFields(d)
  {
    var input := TruthyText(task.inputs, ocr.GetOr(DummyOcrText));
    if input.NotText? {
      r := Crashed(NoSplitMessage(input.value), latencyMs, Cost);
      return;
    }
    var d := ExtractEventLlm(input.text, p);
    r := Answer(d, StatusFor(FieldCount(d)), latencyMs, Cost, evidence);
    assert Extracted(input.text, p, d) && r.data == DataFields(d);
  }
}
