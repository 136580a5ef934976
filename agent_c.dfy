/**
 * Provider C, "Template": the cheapest reader, using plain string operations only. It
 * expects the demo layout: a title line, one line holding "Mon d1–d2, year h:mm AM – h:mm PM",
 * and a place among the last lines.
 */
module AgentC {
  import opened Wrappers
  import opened Json
  import opened Text
  import opened Models
  import opened EventCommon

  /** What the provider quotes and what it reports having spent, in US dollars. */
  const Cost: real := 0.005

  /** The proposal it makes for every intent. */
  function Offer(): (p: Proposal)
    ensures p.estCostUsd == Cost && p.estLatencyMs == 200 && p.confidence == 0.60
    ensures |p.plan| == 3 && p.needs == []
  {
    NewProposal(Cost, 200, 0.60, ["1. Use template matching on input text",
      "2. Extract event fields using simple patterns", "3. Return structured event data"])
  }

  const EnDash: string := "\U{2013}"

  const Months: seq<string> := ["Nov", "Dec", "Jan", "Feb", "Mar", "Apr", "May", "Jun", "Jul", "Aug", "Sep", "Oct"]

  /** The words whose presence rules a line out as a place. */
  const DateWords: seq<string> := ["Nov", "Dec", "AM", "PM", "2025", "2024", "2026"]

  /** The line the dates are read from mentions one of the winter months. */
  predicate MentionsWinterMonth(line: string) {
    Contains(line, "Nov") || Contains(line, "Dec") || Contains(line, "Jan")
  }

  /** `any(month in part for month in months)`. */
  predicate NamesMonth(part: string) {
    exists m :: 0 <= m < |Months| && Contains(part, Months[m])
  }

  predicate HasYear(s: string) {
    Contains(s, "2025") || Contains(s, "2024") || Contains(s, "2026")
  }

  predicate HasDash(s: string) {
    Contains(s, EnDash) || Contains(s, "-")
  }

  /** Split on the en dash when there is one, else on the hyphen. */
  function DashSplit(s: string): (r: seq<string>)
    ensures HasDash(s) ==> |r| >= 2
  {
    if Contains(s, EnDash) then SplitOn(s, EnDash) else SplitOn(s, "-")
  }

  /** The four words from `i` that hold a date: a word naming a month, and a year among the four. */
  predicate DateAt(parts: seq<string>, i: nat) {
    i < |parts| && NamesMonth(parts[i]) && i + 3 < |parts| && HasYear(Join(parts[i..i + 4], " "))
  }

  /** The first index from `i` where `DateAt` holds. */
  function FirstDateAt(parts: seq<string>, i: nat): (r: Option<nat>)
    requires i <= |parts|
    ensures r.Some? ==> i <= r.value < |parts| && DateAt(parts, r.value)
    ensures r.Some? ==> forall j :: i <= j < r.value ==> !DateAt(parts, j)
    ensures r.None? ==> forall j :: i <= j < |parts| ==> !DateAt(parts, j)
    decreases |parts| - i
  {
    if i == |parts| then None
    else if DateAt(parts, i) then Some(i)
    else FirstDateAt(parts, i + 1)
  }

  /** The first date found from `i` is one before which no word starts a date. */
  lemma FirstDateAtStops(parts: seq<string>, i: nat, k: nat)
    requires i <= k < |parts| && DateAt(parts, k)
    requires forall j :: i <= j < k ==> !DateAt(parts, j)
    ensures FirstDateAt(parts, i) == Some(k)
  {
    var r := FirstDateAt(parts, i);
    assert r.Some? && r.value <= k;
  }

  /** The dates held by the four words from `k`: cut at the dash, each side stripped; nothing without a dash. */
  function DatesFrom(parts: seq<string>, k: nat): (r: Option<(string, string)>)
    requires k + 4 <= |parts|
    ensures r.Some? <==> HasDash(Join(parts[k..k + 4], " "))
    ensures r.Some? ==> r.value.0 == Strip(DashSplit(Join(parts[k..k + 4], " "))[0])
  {
    var dateStr := Join(parts[k..k + 4], " ");
    if HasDash(dateStr) then
      var dateParts := DashSplit(dateStr);
      Some((Strip(dateParts[0]), Strip(dateParts[1])))
    else None
  }

  /**
   * The dates of a date line's words: the four words from the first month word that has a
   * year after it, cut at the dash; nothing when those words have no dash.
   */
  function PartsDates(parts: seq<string>): (r: Option<(string, string)>)
    ensures r.Some? ==> var k := FirstDateAt(parts, 0);
      k.Some? && HasDash(Join(parts[k.value..k.value + 4], " ")) &&
      r.value.0 == Strip(DashSplit(Join(parts[k.value..k.value + 4], " "))[0])
    ensures r.None? ==> var k := FirstDateAt(parts, 0);
      k.None? || !HasDash(Join(parts[k.value..k.value + 4], " "))
  {
    var k := FirstDateAt(parts, 0);
    if k.None? then None else DatesFrom(parts, k.value)
  }

  /** The dates of a date line. */
  function LineDates(line: string): Option<(string, string)> {
    PartsDates(Words(line))
  }

  /**
   * The times of a date line: the ten characters before the first "AM" (or, without one,
   * the first "PM") through that marker, cut at the dash; nothing when the marker starts
   * the line or the window has no dash.
   */
  function LineTimes(line: string): (r: Option<(string, string)>)
    ensures r.Some? ==> Contains(line, "AM") || Contains(line, "PM")
  {
    if !(Contains(line, "AM") || Contains(line, "PM")) then None
    else
      var timeIdx := if Contains(line, "AM") then Find(line, "AM") else Find(line, "PM");
      if timeIdx <= 0 then None
      else
        TimesAround(line, timeIdx)
  }

  /** The ten characters before the marker at `timeIdx` through the marker, cut at the dash. */
  function TimesAround(line: string, timeIdx: nat): (r: Option<(string, string)>)
    requires timeIdx + 2 <= |line|
    ensures r.Some? <==> HasDash(line[(if timeIdx - 10 > 0 then timeIdx - 10 else 0)..timeIdx + 2])
  {
    var timePart := line[(if timeIdx - 10 > 0 then timeIdx - 10 else 0)..timeIdx + 2];
    if HasDash(timePart) then
      var times := DashSplit(timePart);
      Some((Strip(times[0]), Strip(times[1])))
    else None
  }

  /** A line that may be the place: not empty, none of the date words, not the title. */
  predicate PlaceFor(title: string, line: string) {
    line != "" && (forall w :: 0 <= w < |DateWords| ==> !Contains(line, DateWords[w])) && line != title
  }

  function PlaceIn(title: string): string -> bool {
    line => PlaceFor(title, line)
  }

  /**
   * What `extract_event_template` makes of a text: the title is the first non-blank line; only the first line
   * mentioning Nov, Dec or Jan is read for dates and times, the times being appended only
   * to dates found; with more than one line, the place is the last of the final three lines
   * that holds no date word and is not the title.
   */
  ghost predicate Extracted(text: string, d: EventData)
  {
    && (var lines := NonBlankLines(text);
        d.title == if lines == [] then None else Some(lines[0]))
    && (var lines := NonBlankLines(text); var k := FirstFrom(lines, MentionsWinterMonth, 0);
        (k.None? ==> d.start.None? && d.end.None?) &&
        (k.Some? ==>
          var ds := LineDates(lines[k.value]); var ts := LineTimes(lines[k.value]);
          (ds.None? ==> d.start.None? && d.end.None?) &&
          (ds.Some? ==>
            d.start == Some(if ts.Some? then ds.value.0 + " " + ts.value.0 else ds.value.0) &&
            d.end == Some(if ts.Some? then ds.value.1 + " " + ts.value.1 else ds.value.1))))
    && (var lines := NonBlankLines(text);
        (|lines| <= 1 ==> d.location.None?) &&
        (|lines| > 1 ==>
          var tail := LastThree(lines); var k := LastBelow(tail, PlaceIn(lines[0]), |tail|);
          d.location == if k.Some? then Some(tail[k.value]) else None))
  }

  /** The extraction leaves nothing open: two data records it allows for a text are the same. */
  lemma ExtractedIsUnique(text: string, d1: EventData, d2: EventData)
    requires Extracted(text, d1) && Extracted(text, d2)
    ensures d1 == d2
  {
  }

  /** The extraction itself, which gives the data `Extracted` describes. */
  method ExtractEventTemplate(text: string) returns (d: EventData)
    ensures Extracted(text, d)
    ensures d.start.Some? <==> d.end.Some?
  {
    d := NoData;
    var lines := NonBlankLines(text);
    if lines != [] {
      d := d.(title := Some(lines[0]));
    }
    var start, end := ReadDateLine(lines);
    d := d.(start := start, end := end);
    if |lines| > 1 {
      var location := LastAccepted(LastThree(lines), PlaceIn(lines[0]));
      d := d.(location := location);
    }
  }

  /** The loop over the lines: the first one mentioning a winter month is read, then the loop stops. */
  method ReadDateLine(lines: seq<string>) returns (start: Option<string>, end: Option<string>)
    ensures var k := FirstFrom(lines, MentionsWinterMonth, 0);
      (k.None? ==> start.None? && end.None?) &&
      (k.Some? ==>
        var ds := LineDates(lines[k.value]); var ts := LineTimes(lines[k.value]);
        (ds.None? ==> start.None? && end.None?) &&
        (ds.Some? ==>
          start == Some(if ts.Some? then ds.value.0 + " " + ts.value.0 else ds.value.0) &&
          end == Some(if ts.Some? then ds.value.1 + " " + ts.value.1 else ds.value.1)))
    ensures start.Some? <==> end.Some?
  {
    start, end := None, None;
    for i := 0 to |lines|
      invariant forall j :: 0 <= j < i ==> !MentionsWinterMonth(lines[j])
    {
      var line := lines[i];
      if MentionsWinterMonth(line) {
        start, end := DatesOf(line);
        var times := TimesOf(line);
        if times.Some? {
          start := WithTime(start, times.value.0);
          end := WithTime(end, times.value.1);
        }
        FirstFromStops(lines, MentionsWinterMonth, 0, i);
        return;
      }
    }
    FirstFromNone(lines, MentionsWinterMonth, 0);
  }

  /** The time window of a date line, cut at its dash. */
  method TimesOf(line: string) returns (times: Option<(string, string)>)
    ensures times == LineTimes(line)
  {
    times := None;
    if Contains(line, "AM") || Contains(line, "PM") {
      var timeIdx := if Contains(line, "AM") then Find(line, "AM") else Find(line, "PM");
      if timeIdx > 0 {
        times := CutTimes(line, timeIdx);
      }
    }
  }

  /** The window around the marker at `timeIdx`, cut at its dash. */
  method CutTimes(line: string, timeIdx: nat) returns (times: Option<(string, string)>)
    requires timeIdx + 2 <= |line|
    ensures times == TimesAround(line, timeIdx)
  {
    times := None;
    var timePart := line[(if timeIdx - 10 > 0 then timeIdx - 10 else 0)..timeIdx + 2];
    if HasDash(timePart) {
      var pieces := DashSplit(timePart);
      if |pieces| >= 2 {
        times := Some((Strip(pieces[0]), Strip(pieces[1])));
      }
    }
  }

  /** The dates of a date line. */
  method DatesOf(line: string) returns (start: Option<string>, end: Option<string>)
    ensures var r := LineDates(line);
      (r.None? ==> start.None? && end.None?) && (r.Some? ==> start == Some(r.value.0) && end == Some(r.value.1))
  {
    start, end := DatesIn(Words(line));
  }

  /** The loop over a date line's words, which stops at the first month word with a year after it. */
  method DatesIn(parts: seq<string>) returns (start: Option<string>, end: Option<string>)
    ensures var r := PartsDates(parts);
      (r.None? ==> start.None? && end.None?) && (r.Some? ==> start == Some(r.value.0) && end == Some(r.value.1))
  {
    start, end := None, None;
    for i := 0 to |parts|
      invariant forall j :: 0 <= j < i ==> !DateAt(parts, j)
    {
      var found := StartsDate(parts, i);
      if found {
        FirstDateAtStops(parts, 0, i);
        assert PartsDates(parts) == DatesFrom(parts, i);
        start, end := CutDates(parts, i);
        return;
      }
    }
    assert FirstDateAt(parts, 0).None?;
  }

  /** The tests of one pass: a word naming a month, three more words, and a year among the four. */
  method StartsDate(parts: seq<string>, i: nat) returns (found: bool)
    requires i < |parts|
    ensures found == DateAt(parts, i)
  {
    found := false;
    if NamesMonth(parts[i]) {
      if i + 3 < |parts| {
        var dateStr := Join(parts[i..i + 4], " ");
        found := HasYear(dateStr);
      }
    }
  }

  /** The body of the loop once a date is found at word `i`: cut it at the dash. */
  method CutDates(parts: seq<string>, i: nat) returns (start: Option<string>, end: Option<string>)
    requires i + 4 <= |parts|
    ensures var r := DatesFrom(parts, i);
      (r.None? ==> start.None? && end.None?) && (r.Some? ==> start == Some(r.value.0) && end == Some(r.value.1))
  {
    start, end := None, None;
    var dateStr := Join(parts[i..i + 4], " ");
    if HasDash(dateStr) {
      var dateParts := DashSplit(dateStr);
      if |dateParts| >= 2 {
        start, end := Some(Strip(dateParts[0])), Some(Strip(dateParts[1]));
      }
    }
  }

  /**
   * `a2a`: read a truthy `text` input, or else the demo text; grade the extracted fields by
   * their number. A non-string text makes the line split raise, which is answered with `ERROR`.
   */
  method A2a(task: Task, latencyMs: int, evidence: seq<(string, Json)>) returns (r: Result)
    ensures r.metrics == Metrics(latencyMs, Cost)
    ensures var input := TruthyText(task.inputs, DummyOcrText);
      (input.NotText? ==> r == Crashed(NoSplitMessage(input.value), latencyMs, Cost)) &&
      (input.Text? ==> r.error.None? && r.evidence == evidence && r.status == StatusFor(|r.data|))
    ensures Lookup(r.data, "start").Some? <==> Lookup(r.data, "end").Some?
    ensures var input := TruthyText(task.inputs, DummyOcrText);
      input.Text? ==> exists d :: Extracted(input.text, d) && r.data == DataFields(d)
  {
    var input := TruthyText(task.inputs, DummyOcrText);
    if input.NotText? {
      r := Crashed(NoSplitMessage(input.value), latencyMs, Cost);
      return;
    }
    var d := ExtractEventTemplate(input.text);
    r := Answer(d, StatusFor(FieldCount(d)), latencyMs, Cost, evidence);
    assert Extracted(input.text, d) && r.data == DataFields(d);
  }
}
