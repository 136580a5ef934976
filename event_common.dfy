/**
 * What the event-extraction providers share: the event record they fill, the status rule
 * that grades a record by its size, the regular-expression searches they run, the choice
 * of the text to read, and the shape of their answer to a task.
 *
 * A search is a parameter: `re.search(pattern, s)` is a function from the searched string
 * to the groups of its first match, if any. The only thing assumed of it is how many groups
 * it yields, which is fixed by the pattern.
 */
module EventCommon {
  import opened Wrappers
  import opened Json
  import opened Text
  import opened Models

  /** The `data` dict an extractor fills; a key is either present with a string or absent. */
  datatype EventData = EventData(title: Option<string>, start: Option<string>, end: Option<string>,
                                 location: Option<string>)

  const NoData: EventData := EventData(None, None, None, None)

  /** `len(data)`. */
  function FieldCount(d: EventData): (n: nat)
    ensures n <= 4
    ensures n == 0 <==> d == NoData
  {
    (if d.title.Some? then 1 else 0) + (if d.start.Some? then 1 else 0) +
    (if d.end.Some? then 1 else 0) + (if d.location.Some? then 1 else 0)
  }

  function AsJson(v: Option<string>): Option<Json> {
    if v.Some? then Some(JStr(v.value)) else None
  }

  function Entry(key: string, v: Option<string>): seq<(string, Json)> {
    if v.Some? then [(key, JStr(v.value))] else []
  }

  /** The dict as JSON, its keys in the order every extractor inserts them. */
  function DataFields(d: EventData): (r: seq<(string, Json)>)
    ensures |r| == FieldCount(d)
    ensures Lookup(r, "title") == AsJson(d.title) && Lookup(r, "start") == AsJson(d.start)
    ensures Lookup(r, "end") == AsJson(d.end) && Lookup(r, "location") == AsJson(d.location)
  {
    FieldsLookUp(d);
    Entry("title", d.title) + (Entry("start", d.start) + (Entry("end", d.end) + Entry("location", d.location)))
  }

  /** Each of the four keys finds its own field in the dict. */
  lemma FieldsLookUp(d: EventData)
    ensures var r := Entry("title", d.title) + (Entry("start", d.start) + (Entry("end", d.end) + Entry("location", d.location)));
      Lookup(r, "title") == AsJson(d.title) && Lookup(r, "start") == AsJson(d.start) &&
      Lookup(r, "end") == AsJson(d.end) && Lookup(r, "location") == AsJson(d.location)
  {
    var l := Entry("location", d.location);
    var el := Entry("end", d.end) + l;
    var sel := Entry("start", d.start) + el;
    assert "title" != "start" && "title" != "end" && "title" != "location";
    assert "start" != "end" && "start" != "location" && "end" != "location";
    LookupAfterEntry("title", d.title, sel, "title");
    LookupAfterEntry("start", d.start, el, "title");
    LookupAfterEntry("end", d.end, l, "title");
    LookupAfterEntry("location", d.location, [], "title");
    LookupAfterEntry("title", d.title, sel, "start");
    LookupAfterEntry("start", d.start, el, "start");
    LookupAfterEntry("end", d.end, l, "start");
    LookupAfterEntry("location", d.location, [], "start");
    LookupAfterEntry("title", d.title, sel, "end");
    LookupAfterEntry("start", d.start, el, "end");
    LookupAfterEntry("end", d.end, l, "end");
    LookupAfterEntry("location", d.location, [], "end");
    LookupAfterEntry("title", d.title, sel, "location");
    LookupAfterEntry("start", d.start, el, "location");
    LookupAfterEntry("end", d.end, l, "location");
    LookupAfterEntry("location", d.location, [], "location");
  }

  /** Looking a key up past an entry that may be absent. */
  lemma LookupAfterEntry(k: string, v: Option<string>, rest: seq<(string, Json)>, key: string)
    ensures Lookup(Entry(k, v) + rest, key) == if k == key && v.Some? then AsJson(v) else Lookup(rest, key)
  {
    if v.Some? {
      assert ([(k, JStr(v.value))] + rest)[1..] == rest;
    } else {
      assert Entry(k, v) + rest == rest;
    }
  }

  /**
   * The grade most providers give their result: `OK` with at least three fields, `PARTIAL`
   * with one or two, `ERROR` with none.
   */
  function StatusFor(count: nat): (s: Status)
    ensures s == OK <==> count >= 3
    ensures s == PARTIAL <==> 1 <= count <= 2
    ensures s == ERROR <==> count == 0
  {
    if count >= 3 then OK else if count > 0 then PARTIAL else ERROR
  }

  /** The stricter grade of the premium provider: one field alone is an `ERROR`. */
  function StrictStatusFor(count: nat): (s: Status)
    ensures s == OK <==> count >= 3
    ensures s == PARTIAL <==> count == 2
    ensures s == ERROR <==> count <= 1
  {
    if count >= 3 then OK else if count >= 2 then PARTIAL else ERROR
  }

  /** The two grades disagree exactly on a single field, which the strict one fails. */
  lemma StrictDiffersOnSingleField(count: nat)
    ensures StrictStatusFor(count) != StatusFor(count) <==> count == 1
    ensures StrictStatusFor(count) != StatusFor(count) ==> StatusFor(count) == PARTIAL && StrictStatusFor(count) == ERROR
  {
  }

  /** The non-blank lines joined by single spaces: `' '.join(lines)`. */
  function FullText(lines: seq<string>): string {
    Join(lines, " ")
  }

  /** `f"{month} {day}, {year}"`. */
  function DateText(month: string, day: string, year: string): string {
    month + " " + day + ", " + year
  }

  /** `f"{date} {time}"` when the field exists; a missing field stays missing. */
  function WithTime(field: Option<string>, time: string): (r: Option<string>)
    ensures r.Some? <==> field.Some?
    ensures r.Some? ==> StartsWith(r.value, field.value + " ") && EndsWith(r.value, " " + time)
  {
    if field.Some? then
      var v := field.value + " " + time;
      assert v[..|field.value + " "|] == field.value + " ";
      assert v[|v| - |" " + time|..] == " " + time;
      Some(v)
    else None
  }

  /** Start and end of a month-first range: the groups are month, first day, last day, year. */
  function MonthFirstDates(g: seq<string>): (r: (string, string))
    requires |g| == 4
    ensures StartsWith(r.0, g[0] + " ") && StartsWith(r.1, g[0] + " ")
  {
    var a, b := DateText(g[0], g[1], g[3]), DateText(g[0], g[2], g[3]);
    assert a[..|g[0] + " "|] == g[0] + " ";
    assert b[..|g[0] + " "|] == g[0] + " ";
    (a, b)
  }

  /** Start and end of a day-first range: the groups are first day, last day, month, year. */
  function DayFirstDates(g: seq<string>): (r: (string, string))
    requires |g| == 4
    ensures r == MonthFirstDates([g[2], g[0], g[1], g[3]])
    ensures StartsWith(r.0, g[2] + " ") && StartsWith(r.1, g[2] + " ")
  {
    MonthFirstDates([g[2], g[0], g[1], g[3]])
  }

  /** `data.get("title", "")`. */
  function TitleOrEmpty(d: EventData): string {
    d.title.GetOr("")
  }

  // ---------------------------------------------------------------- scans

  /** `re.search(pattern, s)`: the groups of the first match, if there is one. */
  type Search = string -> Option<seq<string>>

  /** The first index at or after `i` whose line `ok` accepts: a forward loop that breaks. */
  function FirstFrom(lines: seq<string>, ok: string -> bool, i: nat): (r: Option<nat>)
    requires i <= |lines|
    ensures r.Some? ==> i <= r.value < |lines| && ok(lines[r.value])
    ensures r.Some? ==> forall j :: i <= j < r.value ==> !ok(lines[j])
    ensures r.None? ==> forall j :: i <= j < |lines| ==> !ok(lines[j])
    decreases |lines| - i
  {
    if i == |lines| then None
    else if ok(lines[i]) then Some(i)
    else FirstFrom(lines, ok, i + 1)
  }

  /** The last index below `n` whose line `ok` accepts: a loop over `reversed(lines[:n])` that breaks. */
  function LastBelow(lines: seq<string>, ok: string -> bool, n: nat): (r: Option<nat>)
    requires n <= |lines|
    ensures r.Some? ==> r.value < n && ok(lines[r.value])
    ensures r.Some? ==> forall j :: r.value < j < n ==> !ok(lines[j])
    ensures r.None? ==> forall j :: 0 <= j < n ==> !ok(lines[j])
  {
    if n == 0 then None
    else if ok(lines[n - 1]) then Some(n - 1)
    else LastBelow(lines, ok, n - 1)
  }

  /** A line accepted after only rejected ones is the one a forward scan stops at. */
  lemma FirstFromStops(lines: seq<string>, ok: string -> bool, i: nat, k: nat)
    requires i <= k < |lines| && ok(lines[k])
    requires forall j :: i <= j < k ==> !ok(lines[j])
    ensures FirstFrom(lines, ok, i) == Some(k)
  {
    var r := FirstFrom(lines, ok, i);
    assert r.Some? && r.value <= k;
  }

  /** A line accepted before only rejected ones is the one a backward scan stops at. */
  lemma LastBelowStops(lines: seq<string>, ok: string -> bool, n: nat, k: nat)
    requires k < n <= |lines| && ok(lines[k])
    requires forall j :: k < j < n ==> !ok(lines[j])
    ensures LastBelow(lines, ok, n) == Some(k)
  {
    var r := LastBelow(lines, ok, n);
    assert r.Some? && r.value >= k;
  }

  /** A forward scan over lines that are all rejected finds nothing. */
  lemma FirstFromNone(lines: seq<string>, ok: string -> bool, i: nat)
    requires i <= |lines|
    requires forall j :: i <= j < |lines| ==> !ok(lines[j])
    ensures FirstFrom(lines, ok, i).None?
  {
  }

  /** A backward scan over lines that are all rejected finds nothing. */
  lemma LastBelowNone(lines: seq<string>, ok: string -> bool, n: nat)
    requires n <= |lines|
    requires forall j :: 0 <= j < n ==> !ok(lines[j])
    ensures LastBelow(lines, ok, n).None?
  {
  }

  /** A backward scan past a rejected line goes on below it; an accepted line ends it. */
  lemma LastBelowStep(lines: seq<string>, ok: string -> bool, n: nat)
    requires 0 < n <= |lines|
    ensures ok(lines[n - 1]) ==> LastBelow(lines, ok, n) == Some(n - 1)
    ensures !ok(lines[n - 1]) ==> LastBelow(lines, ok, n) == LastBelow(lines, ok, n - 1)
  {
  }

  /**
   * `for line in reversed(lines): if ok(line): return line`: the line the backward scan stops
   * at, or None when it runs out of lines.
   */
  method LastAccepted(lines: seq<string>, ok: string -> bool) returns (found: Option<string>)
    ensures var k := LastBelow(lines, ok, |lines|);
      found == if k.Some? then Some(lines[k.value]) else None
  {
    var k := |lines|;
    while k > 0
      invariant 0 <= k <= |lines|
      invariant LastBelow(lines, ok, |lines|) == LastBelow(lines, ok, k)
    {
      var line := lines[k - 1];
      LastBelowStep(lines, ok, k);
      if ok(line) {
        return Some(line);
      }
      k := k - 1;
    }
    return None;
  }

  /** The line a backward scan stops at: the last line `ok` accepts. */
  function LastAcceptedLine(lines: seq<string>, ok: string -> bool): (r: Option<string>)
    ensures r.Some? ==> r.value in lines && ok(r.value)
    ensures r.None? ==> forall i :: 0 <= i < |lines| ==> !ok(lines[i])
  {
    var k := LastBelow(lines, ok, |lines|);
    if k.Some? then Some(lines[k.value]) else None
  }

  /** A member of a suffix is a member of the whole. */
  lemma InSuffix(lines: seq<string>, n: nat, x: string)
    requires n <= |lines| && x in lines[n..]
    ensures x in lines
  {
    var i :| 0 <= i < |lines[n..]| && lines[n..][i] == x;
    assert lines[n + i] == x;
  }

  /** The first of `searches` that matches `s`: a loop over patterns that breaks on a match. */
  function FirstHit(searches: seq<Search>, s: string): (r: Option<nat>)
    ensures r.Some? ==> r.value < |searches| && searches[r.value](s).Some?
    ensures r.Some? ==> forall j :: 0 <= j < r.value ==> searches[j](s).None?
    ensures r.None? ==> forall j :: 0 <= j < |searches| ==> searches[j](s).None?
  {
    if searches == [] then None
    else if searches[0](s).Some? then Some(0)
    else
      var rest := FirstHit(searches[1..], s);
      assert forall j :: 1 <= j < |searches| ==> searches[1..][j - 1] == searches[j];
      if rest.Some? then Some(rest.value + 1) else None
  }

  /** The groups of the first of `searches` that matches `s`. */
  function FirstGroups(searches: seq<Search>, s: string): (r: Option<seq<string>>)
    ensures r.Some? <==> FirstHit(searches, s).Some?
    ensures r.Some? ==> r == searches[FirstHit(searches, s).value](s)
  {
    var k := FirstHit(searches, s);
    if k.Some? then searches[k.value](s) else None
  }

  // ---------------------------------------------------------------- line tests

  /** The lines the place is looked for in: `lines[-3:]`. */
  function LastThree(lines: seq<string>): (r: seq<string>)
    ensures |r| <= 3 && |r| <= |lines|
    ensures r == lines[|lines| - |r|..]
    ensures |lines| >= 3 ==> |r| == 3
    ensures |lines| < 3 ==> r == lines
  {
    if |lines| >= 3 then lines[|lines| - 3..] else lines
  }

  /** A title line is longer than ten characters and does not start with a digit. */
  predicate TitleLine(line: string) {
    |line| > 10 && !IsDigit(line[0])
  }

  /** The title loop: the first title line among `lines`. */
  method ReadTitle(lines: seq<string>) returns (title: Option<string>)
    ensures var k := FirstFrom(lines, TitleLine, 0); title == if k.Some? then Some(lines[k.value]) else None
  {
    for i := 0 to |lines|
      invariant forall j :: 0 <= j < i ==> !TitleLine(lines[j])
    {
      var line := lines[i];
      if |line| > 10 && !IsDigit(line[0]) {
        FirstFromStops(lines, TitleLine, 0, i);
        return Some(line);
      }
    }
    FirstFromNone(lines, TitleLine, 0);
    return None;
  }

  /** A non-empty string, which `split` accepts as a separator. */
  type Separator = s: string | s != "" witness "-"

  /**
   * `if indicator in line.lower(): parts = line.split(indicator, 1)`: the text after the
   * indicator, stripped, when the lowered line mentions it, the line itself holds it, and
   * something is left.
   */
  function IndicatorHit(line: string, indicator: string): (r: Option<string>)
    requires indicator != ""
    ensures r.Some? ==> Contains(Lower(line), indicator) && Contains(line, indicator)
    ensures r.Some? ==> r.value != "" && !IsSpace(r.value[0]) && !IsSpace(r.value[|r.value| - 1])
  {
    if Contains(Lower(line), indicator) then
      var parts := SplitOnce(line, indicator);
      if |parts| > 1 && Strip(parts[1]) != "" then Some(Strip(parts[1])) else None
    else None
  }

  /** The place the first of `indicators` from `j` that hits gives. */
  function IndicatorPlace(line: string, indicators: seq<Separator>, j: nat): (r: Option<string>)
    requires j <= |indicators|
    decreases |indicators| - j
  {
    if j == |indicators| then None
    else
      var hit := IndicatorHit(line, indicators[j]);
      if hit.Some? then hit else IndicatorPlace(line, indicators, j + 1)
  }

  /** One step of the indicator scan: a hit is the answer, a miss moves to the next indicator. */
  lemma IndicatorPlaceStep(line: string, indicators: seq<Separator>, j: nat)
    requires j < |indicators|
    ensures IndicatorHit(line, indicators[j]).Some? ==> IndicatorPlace(line, indicators, j) == IndicatorHit(line, indicators[j])
    ensures IndicatorHit(line, indicators[j]).None? ==> IndicatorPlace(line, indicators, j) == IndicatorPlace(line, indicators, j + 1)
  {
  }

  /** The indicator loop of one line: the first indicator that leaves a non-empty rest. */
  method ReadIndicator(line: string, indicators: seq<Separator>) returns (hit: Option<string>)
    ensures hit == IndicatorPlace(line, indicators, 0)
  {
    for j := 0 to |indicators|
      invariant IndicatorPlace(line, indicators, j) == IndicatorPlace(line, indicators, 0)
    {
      var found := IndicatorHit(line, indicators[j]);
      if found.Some? {
        return found;
      }
    }
    return None;
  }

  /** A line one of `indicators` reads a place from. */
  function HitIn(indicators: seq<Separator>): string -> bool {
    line => IndicatorPlace(line, indicators, 0).Some?
  }

  /** The place read from the first line one of `indicators` reads a place from. */
  function FirstIndicatorPlace(lines: seq<string>, indicators: seq<Separator>): (r: Option<string>)
    ensures r.Some? <==> exists i :: 0 <= i < |lines| && HitIn(indicators)(lines[i])
    ensures r.Some? ==> exists i :: 0 <= i < |lines| && r == IndicatorPlace(lines[i], indicators, 0)
  {
    var k := FirstFrom(lines, HitIn(indicators), 0);
    if k.Some? then IndicatorPlace(lines[k.value], indicators, 0) else None
  }

  /** The loop over the lines in order that stops at the first one an indicator reads a place from. */
  method ReadIndicatorLine(lines: seq<string>, indicators: seq<Separator>) returns (location: Option<string>)
    ensures location == FirstIndicatorPlace(lines, indicators)
  {
    for i := 0 to |lines|
      invariant forall j :: 0 <= j < i ==> !HitIn(indicators)(lines[j])
    {
      var hit := ReadIndicator(lines[i], indicators);
      if hit.Some? {
        FirstFromStops(lines, HitIn(indicators), 0, i);
        return hit;
      }
    }
    FirstFromNone(lines, HitIn(indicators), 0);
    return None;
  }

  /** The title line of the demo text. */
  const DemoTitle: string := "Global Scoop AI Hackathon"

  /**
   * Indicators are matched as substrings: with "in" and then "at" tried first, the demo title,
   * which holds "at" inside "Hackathon", reads as its place "hon".
   */
  lemma DemoTitleReadsHon(line: string, indicators: seq<Separator>)
    requires line == DemoTitle
    requires |indicators| >= 2 && indicators[0] == "in" && indicators[1] == "at"
    ensures IndicatorPlace(line, indicators, 0) == Some("hon")
  {
    DemoTitleLetters(line);
    DemoTitleFindsAt(line);
    DemoTitleRest(line);
    AtInsideWord(line, indicators, 20, "hon");
  }

  /**
   * With "in" and then "at" tried first, a line with no "in" in any case reads as its place
   * the trimmed rest after its first "at".
   */
  lemma AtInsideWord(line: string, indicators: seq<Separator>, i: nat, rest: string)
    requires |indicators| >= 2 && indicators[0] == "in" && indicators[1] == "at"
    requires forall j :: 0 <= j < |line| - 1 && (line[j] == 'I' || line[j] == 'i') ==> line[j + 1] != 'N' && line[j + 1] != 'n'
    requires Find(line, "at") == i && OccursAt(line, "at", i) && line[i + 2..] == rest
    requires rest != [] && !IsSpace(rest[0]) && !IsSpace(rest[|rest| - 1])
    ensures IndicatorPlace(line, indicators, 0) == Some(rest)
  {
    NoLoweredIn(line);
    AtReadsRest(line, i, rest);
    IndicatorPlaceStep(line, indicators, 0);
    IndicatorPlaceStep(line, indicators, 1);
  }

  /** The "at" indicator of a line reads the trimmed rest after the line's first "at". */
  lemma AtReadsRest(line: string, i: nat, rest: string)
    requires Find(line, "at") == i && OccursAt(line, "at", i) && line[i + 2..] == rest
    requires rest != [] && !IsSpace(rest[0]) && !IsSpace(rest[|rest| - 1])
    ensures IndicatorHit(line, "at") == Some(rest)
  {
    LowerKeeps(line, "at", i);
    assert Contains(Lower(line), "at");
    assert SplitOnce(line, "at")[1] == rest;
    StripTrimmed(rest);
  }

  /** A line lowers to one without "in" when no "i" or "I" in it is followed by "n" or "N". */
  lemma NoLoweredIn(line: string)
    requires forall j :: 0 <= j < |line| - 1 && (line[j] == 'I' || line[j] == 'i') ==> line[j + 1] != 'N' && line[j + 1] != 'n'
    ensures !Contains(Lower(line), "in") && IndicatorHit(line, "in") == None
  {
    var l := Lower(line);
    var r := Find(l, "in");
    if r >= 0 {
      LoweredIn(line, r);
      assert false;
    }
  }

  /** The demo title's only "I" is followed by a space, and its first "at" is at index 20. */
  lemma DemoTitleLetters(line: string)
    requires line == DemoTitle
    ensures forall j :: 0 <= j < |line| - 1 && (line[j] == 'I' || line[j] == 'i') ==> line[j + 1] != 'N' && line[j + 1] != 'n'
  {
    forall j | 0 <= j < |line| - 1 && (line[j] == 'I' || line[j] == 'i')
      ensures line[j + 1] != 'N' && line[j + 1] != 'n'
    {
      DemoTitleLetterAt(line, j, 'I', 'i');
    }
  }

  /** The first "at" of the demo title starts at index 20, inside "Hackathon". */
  lemma DemoTitleFindsAt(line: string)
    requires line == DemoTitle
    ensures Find(line, "at") == 20 && OccursAt(line, "at", 20)
  {
    assert OccursAt(line, "at", 20) by { assert line[20..22] == "at"; }
    forall j | 0 <= j < 20 ensures !OccursAt(line, "at", j) {
      if OccursAt(line, "at", j) {
        assert line[j..j + 2] == "at";
        DemoTitleLetterAt(line, j + 1, 't', 't');
      }
    }
  }

  /** What follows the first "at" of the demo title. */
  lemma DemoTitleRest(line: string)
    requires line == DemoTitle
    ensures line[22..] == "hon" && !IsSpace('h') && !IsSpace('n')
  {
  }

  /** Where the demo title holds `upper` or `lower`: index 14 for an "I", index 21 for a "t". */
  lemma DemoTitleLetterAt(line: string, j: int, upper: char, lower: char)
    requires line == DemoTitle && 0 <= j < |line| && (line[j] == upper || line[j] == lower)
    requires (upper, lower) == ('I', 'i') || (upper, lower) == ('t', 't')
    ensures upper == 'I' ==> j == 14
    ensures upper == 't' ==> j == 21
  {
  }

  // ---------------------------------------------------------------- searches

  /** Whenever the search matches it yields `n` groups, the number its pattern has. */
  ghost predicate Groups(search: Search, n: nat) {
    forall s :: search(s).Some? ==> |search(s).value| == n
  }

  /**
   * The searches the providers run. Names say what each pattern captures:
   * - monthRange: a three-letter month, a day, a dash, a day, a comma and a four-digit year;
   * - longMonthRange / upTo9MonthRange: the same with a month of 3 or more / 3 to 9 letters;
   * - dayRange / longDayRange: day, dash, day, then a three-letter / longer month, comma, year;
   * - monthDay: a three-letter month, one day, a comma and a year;
   * - numericDate: three numbers separated by slashes or dashes;
   * - timeRange: two times with AM or PM after a space, joined by a dash;
   * - looseTimeRange: the same with the space before AM or PM optional;
   * - clockRange: two bare times joined by a dash; clockTime: one time with AM or PM;
   * - properNounLine: capitalised words ending a line.
   */
  datatype Patterns = Patterns(
    monthRange: Search, longMonthRange: Search, upTo9MonthRange: Search,
    dayRange: Search, longDayRange: Search, monthDay: Search, numericDate: Search,
    timeRange: Search, looseTimeRange: Search, clockRange: Search, clockTime: Search,
    properNounLine: Search)

  /**
   * The one date-range search and the one time-range search over `full`: a range sets start
   * and end together, and the two times are appended only to dates that exist.
   */
  method ReadRangeAndTimes(full: string, p: Patterns) returns (start: Option<string>, end: Option<string>)
    requires Groups(p.monthRange, 4) && Groups(p.timeRange, 2)
    ensures start.Some? <==> p.monthRange(full).Some?
    ensures end.Some? <==> start.Some?
    ensures p.monthRange(full).Some? ==>
      var g := p.monthRange(full).value; var t := p.timeRange(full);
      start == Some(if t.Some? then DateText(g[0], g[1], g[3]) + " " + t.value[0] else DateText(g[0], g[1], g[3])) &&
      end == Some(if t.Some? then DateText(g[0], g[2], g[3]) + " " + t.value[1] else DateText(g[0], g[2], g[3]))
  {
    start, end := None, None;
    var date := p.monthRange(full);
    if date.Some? {
      var g := date.value;
      start, end := Some(DateText(g[0], g[1], g[3])), Some(DateText(g[0], g[2], g[3]));
    }
    var time := p.timeRange(full);
    if time.Some? {
      start, end := WithTime(start, time.value[0]), WithTime(end, time.value[1]);
    }
  }

  // ---------------------------------------------------------------- input and answer

  /** The text an extractor reads, or the non-string value it was handed instead. */
  datatype Input = Text(text: string) | NotText(value: Json)

  /** The demo text the providers read when there is no text and no usable image. */
  const DummyOcrText: string :=
    "Global Scoop AI Hackathon\n\nNov 22\U{2013}23, 2025 8:30 AM \U{2013} 5:30 PM\n\nSanta Clara"

  /**
   * `if text_input: ocr_text = text_input else: ocr_text = fallback`: a truthy `text` input
   * wins, whatever its type; anything else gives the fallback text.
   */
  function TruthyText(inputs: seq<(string, Json)>, fallback: string): (r: Input)
    ensures var v := Lookup(inputs, "text");
      (v.Some? && Truthy(v.value) ==> r == if v.value.JStr? then Text(v.value.s) else NotText(v.value)) &&
      (!(v.Some? && Truthy(v.value)) ==> r == Text(fallback))
  {
    var v := Lookup(inputs, "text");
    if v.Some? && Truthy(v.value) then
      if v.value.JStr? then Text(v.value.s) else NotText(v.value)
    else Text(fallback)
  }

  /** `task.inputs.get("text", "")`: a missing text is empty, a present one is taken as it is. */
  function PlainText(inputs: seq<(string, Json)>): (r: Input)
    ensures Lookup(inputs, "text").None? ==> r == Text("")
    ensures r.Text? && Lookup(inputs, "text").Some? ==> Lookup(inputs, "text") == Some(JStr(r.text))
    ensures r.NotText? <==> Lookup(inputs, "text").Some? && !Lookup(inputs, "text").value.JStr?
  {
    match Lookup(inputs, "text")
    case None => Text("")
    case Some(v) => if v.JStr? then Text(v.s) else NotText(v)
  }

  /** `metrics`: the measured latency and the provider's fixed cost. */
  function Metrics(latencyMs: int, costUsd: real): seq<(string, Json)> {
    [("latency_ms", JInt(latencyMs)), ("cost_usd", JFloat(costUsd))]
  }

  /** The answer after a successful extraction: the data, its grade, the evidence, no error. */
  function Answer(d: EventData, status: Status, latencyMs: int, costUsd: real,
                  evidence: seq<(string, Json)>): (r: Result)
    ensures r.status == status && r.error.None? && r.evidence == evidence
    ensures r.data == DataFields(d) && |r.data| == FieldCount(d)
    ensures r.metrics == Metrics(latencyMs, costUsd)
  {
    Result(status, DataFields(d), Metrics(latencyMs, costUsd), evidence, None)
  }

  /** The answer when extraction raised: `ERROR`, no data, no evidence, the exception's text. */
  function Crashed(message: string, latencyMs: int, costUsd: real): (r: Result)
    ensures r.status == ERROR && r.data == [] && r.evidence == [] && r.error == Some(message)
    ensures r.metrics == Metrics(latencyMs, costUsd)
  {
    Result(ERROR, [], Metrics(latencyMs, costUsd), [], Some(message))
  }

  /** The AttributeError of `text.split(...)` on a value that is not a string. */
  function NoSplitMessage(v: Json): string {
    NoAttributeMessage(v, "split")
  }
}
