/**
 * The Python and JavaScript string operations the providers and the web client use:
 * `strip`, `split(sep)`, `split(sep, 1)`, `split()`, `find`, `in`, `' '.join`, `lower`,
 * and decimal rendering of integers. Characters are Unicode scalar values, as in Python 3.
 */
module Text {

  /** `c.isspace()` in Python 3 (the characters `str.strip()` and `str.split()` remove). */
  predicate IsSpace(c: char) {
    c == ' ' || ('\t' <= c <= '\r') || ('\U{1c}' <= c <= '\U{1f}') || c == '\U{85}' || c == '\U{a0}'
    || c == '\U{1680}' || ('\U{2000}' <= c <= '\U{200a}') || c == '\U{2028}' || c == '\U{2029}'
    || c == '\U{202f}' || c == '\U{205f}' || c == '\U{3000}'
  }

  /** ASCII upper-case letter. */
  predicate IsUpper(c: char) { 'A' <= c <= 'Z' }

  /** ASCII lower-case letter. */
  predicate IsLower(c: char) { 'a' <= c <= 'z' }

  /** ASCII letter. */
  predicate IsAlpha(c: char) { IsUpper(c) || IsLower(c) }

  /** ASCII decimal digit. */
  predicate IsDigit(c: char) { '0' <= c <= '9' }

  /** `s.isalpha()`: non-empty and letters only. */
  predicate AllAlpha(s: string) {
    s != [] && forall i :: 0 <= i < |s| ==> IsAlpha(s[i])
  }

  /** `s.startswith(p)`. */
  predicate StartsWith(s: string, p: string) {
    |p| <= |s| && s[..|p|] == p
  }

  /** `s.endswith(p)`. */
  predicate EndsWith(s: string, p: string) {
    |p| <= |s| && s[|s| - |p|..] == p
  }

  /** `s.lstrip()`. */
  function LStrip(s: string): (r: string)
    ensures |r| <= |s| && r == s[|s| - |r|..]
    ensures r != [] ==> !IsSpace(r[0])
    ensures forall i :: 0 <= i < |s| - |r| ==> IsSpace(s[i])
  {
    if s != [] && IsSpace(s[0]) then LStrip(s[1..]) else s
  }

  /** `s.rstrip()`. */
  function RStrip(s: string): (r: string)
    ensures |r| <= |s| && r == s[..|r|]
    ensures r != [] ==> !IsSpace(r[|r| - 1])
    ensures forall i :: |r| <= i < |s| ==> IsSpace(s[i])
  {
    if s != [] && IsSpace(s[|s| - 1]) then RStrip(s[..|s| - 1]) else s
  }

  /** `s.strip()`: the text between the leading and the trailing whitespace. */
  function Strip(s: string): (r: string)
    ensures |r| <= |s|
    ensures r != [] ==> !IsSpace(r[0]) && !IsSpace(r[|r| - 1])
    ensures r == [] <==> forall i :: 0 <= i < |s| ==> IsSpace(s[i])
  {
    RStrip(LStrip(s))
  }

  /** What stripping leaves is a slice of the text with only whitespace cut before and after it. */
  lemma StripIsSlice(s: string)
    ensures exists a, b :: SpaceOutside(s, a, b) && Strip(s) == s[a..b]
  {
    var l := LStrip(s);
    var r := RStrip(l);
    var a := |s| - |l|;
    assert l == s[a..] && r == l[..|r|];
    DropThenTake(s, a, |r|);
    assert SpaceOutside(s, a, a + |r|) by {
      forall i | a + |r| <= i < |s| ensures IsSpace(s[i]) {
        assert s[i] == l[i - a];
      }
    }
  }

  /** Taking `n` after dropping `a` is the slice from `a` to `a + n`. */
  lemma DropThenTake(s: string, a: nat, n: nat)
    requires a + n <= |s|
    ensures s[a..][..n] == s[a..a + n]
  {
  }

  /** Every character of `s` before index `a` or from index `b` on is whitespace. */
  predicate SpaceOutside(s: string, a: int, b: int) {
    0 <= a <= b <= |s| && (forall i :: 0 <= i < a ==> IsSpace(s[i])) && (forall i :: b <= i < |s| ==> IsSpace(s[i]))
  }

  /** `p` occurs in `s` starting at index `j`. */
  predicate OccursAt(s: string, p: string, j: int) {
    0 <= j && j + |p| <= |s| && s[j..j + |p|] == p
  }

  /** An occurrence of `p` at `j` matches `p` character by character. */
  lemma OccurrenceChars(s: string, p: string, j: nat)
    requires OccursAt(s, p, j)
    ensures forall k :: 0 <= k < |p| ==> s[j + k] == p[k]
  {
    forall k | 0 <= k < |p| ensures s[j + k] == p[k] {
      assert s[j..j + |p|][k] == s[j + k];
    }
  }

  /** The index of the first occurrence of `p` in `s`: Python's `s.find(p)`, -1 when absent. */
  function Find(s: string, p: string): (r: int)
    ensures r >= -1
    ensures r >= 0 ==> OccursAt(s, p, r)
    ensures r >= 0 ==> forall j :: 0 <= j < r ==> !OccursAt(s, p, j)
    ensures r < 0 ==> forall j :: !OccursAt(s, p, j)
  {
    if |p| > |s| then -1
    else if s[..|p|] == p then 0
    else
      var t := Find(s[1..], p);
      assert forall j :: 1 <= j ==> (OccursAt(s, p, j) <==> OccursAt(s[1..], p, j - 1)) by {
        forall j | 1 <= j ensures OccursAt(s, p, j) <==> OccursAt(s[1..], p, j - 1) {
          if j + |p| <= |s| {
            var a, b := s[j..j + |p|], s[1..][j - 1..j - 1 + |p|];
            assert |a| == |b| && forall k :: 0 <= k < |a| ==> a[k] == b[k];
          }
        }
      }
      if t < 0 then -1 else t + 1
  }

  /** Python's `p in s` for strings. */
  predicate Contains(s: string, p: string) {
    Find(s, p) >= 0
  }

  /** `s.split(sep)` for a non-empty separator: the pieces between successive occurrences. */
  function SplitOn(s: string, sep: string): (r: seq<string>)
    requires sep != ""
    ensures |r| >= 1
    ensures |r| == 1 <==> !Contains(s, sep)
    ensures !Contains(s, sep) ==> r == [s]
    ensures Contains(s, sep) ==> r[0] == s[..Find(s, sep)]
    decreases |s|
  {
    var i := Find(s, sep);
    if i < 0 then [s] else [s[..i]] + SplitOn(s[i + |sep|..], sep)
  }

  /** Joining the pieces with the separator gives the text back, and no piece holds the separator. */
  lemma {:induction false} SplitOnJoins(s: string, sep: string)
    requires sep != ""
    ensures Join(SplitOn(s, sep), sep) == s
    ensures forall k :: 0 <= k < |SplitOn(s, sep)| ==> !Contains(SplitOn(s, sep)[k], sep)
    decreases |s|
  {
    var i := Find(s, sep);
    if i >= 0 {
      var rest := SplitOn(s[i + |sep|..], sep);
      SplitOnJoins(s[i + |sep|..], sep);
      NothingBeforeFirst(s, sep);
      CutAround(s, i, sep);
      JoinFront(s[..i], rest, sep);
    }
  }

  /** A text is the part before an occurrence of `sep`, `sep`, and the part after it. */
  lemma CutAround(s: string, i: nat, sep: string)
    requires OccursAt(s, sep, i)
    ensures s == s[..i] + sep + s[i + |sep|..]
  {
    assert s == s[..i] + s[i..i + |sep|] + s[i + |sep|..];
  }

  /** Joining a piece in front of a non-empty list puts the separator between them. */
  lemma JoinFront(a: string, rest: seq<string>, sep: string)
    requires rest != []
    ensures Join([a] + rest, sep) == a + sep + Join(rest, sep)
    ensures forall k :: 1 <= k < |[a] + rest| ==> ([a] + rest)[k] == rest[k - 1]
  {
    assert ([a] + rest)[1..] == rest;
  }

  /** A slice of a prefix is the same slice of the whole. */
  lemma TakeThenSlice(s: string, i: nat, a: nat, b: nat)
    requires a <= b <= i <= |s|
    ensures s[..i][a..b] == s[a..b]
  {
  }

  /** The text before the first occurrence of `sep` does not contain it. */
  lemma NothingBeforeFirst(s: string, sep: string)
    requires sep != "" && Find(s, sep) >= 0
    ensures !Contains(s[..Find(s, sep)], sep)
  {
    var i := Find(s, sep);
    var t := s[..i];
    forall j | 0 <= j && j + |sep| <= i ensures !OccursAt(t, sep, j) {
      TakeThenSlice(s, i, j, j + |sep|);
      assert j < i && !OccursAt(s, sep, j);
    }
  }

  /** `s.split(sep, 1)`: at most two pieces, cut at the first occurrence. */
  function SplitOnce(s: string, sep: string): (r: seq<string>)
    requires sep != ""
    ensures |r| == 1 <==> !Contains(s, sep)
    ensures |r| == 1 ==> r == [s]
    ensures |r| == 2 || |r| == 1
    ensures |r| == 2 ==> r[0] == s[..Find(s, sep)] && r[1] == s[Find(s, sep) + |sep|..]
  {
    var i := Find(s, sep);
    if i < 0 then [s] else [s[..i], s[i + |sep|..]]
  }

  /** Index of the first whitespace character of `s`, or |s|. */
  function FirstSpace(s: string): (k: nat)
    ensures k <= |s|
    ensures forall i :: 0 <= i < k ==> !IsSpace(s[i])
    ensures k < |s| ==> IsSpace(s[k])
  {
    if s == [] || IsSpace(s[0]) then 0 else 1 + FirstSpace(s[1..])
  }

  /** `s.split()`: the maximal runs of non-whitespace characters. */
  function Words(s: string): (r: seq<string>)
    ensures forall i :: 0 <= i < |r| ==> r[i] != ""
    decreases |s|
  {
    var t := LStrip(s);
    if t == [] then []
    else
      var k := FirstSpace(t);
      [t[..k]] + Words(t[k..])
  }

  /** `sep.join(parts)`. */
  function Join(parts: seq<string>, sep: string): string {
    if parts == [] then ""
    else if |parts| == 1 then parts[0]
    else parts[0] + sep + Join(parts[1..], sep)
  }

  /** A capital ASCII letter as its small letter; every other character is kept. */
  function LowerChar(c: char): (r: char)
    ensures !IsUpper(r)
    ensures IsUpper(c) ==> r as int == c as int + 32 && IsLower(r)
    ensures !IsUpper(c) ==> r == c
  {
    if IsUpper(c) then (c as int + 32) as char else c
  }

  /** `s.lower()` on ASCII letters; every other character is kept. */
  function Lower(s: string): (r: string)
    ensures |r| == |s|
    ensures forall i :: 0 <= i < |r| ==> !IsUpper(r[i])
    ensures forall i :: 0 <= i < |s| ==> r[i] == LowerChar(s[i])
  {
    if s == [] then []
    else [LowerChar(s[0])] + Lower(s[1..])
  }

  /** A lowered text holds "in" only where the text holds an "i" or "I" followed by an "n" or "N". */
  lemma LoweredIn(s: string, j: nat)
    requires OccursAt(Lower(s), "in", j)
    ensures (s[j] == 'I' || s[j] == 'i') && (s[j + 1] == 'N' || s[j + 1] == 'n')
  {
    var l := Lower(s);
    OccurrenceChars(l, "in", j);
    assert l[j + 0] == "in"[0] && l[j + 1] == "in"[1];
    LoweredChar(s[j], 'i');
    LoweredChar(s[j + 1], 'n');
  }

  /** A character that lowers to the small letter `lc` is `lc` or its capital. */
  lemma LoweredChar(c: char, lc: char)
    requires IsLower(lc) && LowerChar(c) == lc
    ensures c == lc || c as int == lc as int - 32
  {
  }

  /** A text with no whitespace at either end is its own strip. */
  lemma StripTrimmed(s: string)
    requires s != [] && !IsSpace(s[0]) && !IsSpace(s[|s| - 1])
    ensures Strip(s) == s
  {
    assert LStrip(s) == s;
    assert RStrip(s) == s;
  }

  /** Lowering keeps every occurrence of a pattern without capitals. */
  lemma LowerKeeps(s: string, p: string, j: nat)
    requires OccursAt(s, p, j) && forall k :: 0 <= k < |p| ==> !IsUpper(p[k])
    ensures OccursAt(Lower(s), p, j)
  {
    var l := Lower(s);
    forall k | j <= k < j + |p| ensures l[k] == s[k] {
      assert s[k] == p[k - j];
    }
    assert l[j..j + |p|] == s[j..j + |p|];
  }

  /** Decimal digits of a natural number, as `str(n)` and `n.toString()` print it. */
  function NatToString(n: nat): (r: string)
    ensures r != "" && forall i :: 0 <= i < |r| ==> IsDigit(r[i])
  {
    if n < 10 then ["0123456789"[n]]
    else NatToString(n / 10) + ["0123456789"[n % 10]]
  }

  /** `str(i)` / `i.toString()` for a possibly negative integer. */
  function IntToString(i: int): string {
    if i < 0 then "-" + NatToString(-i) else NatToString(i)
  }

  /** The stripped, non-empty pieces of `parts`, in order. */
  function StrippedNonEmpty(parts: seq<string>): (r: seq<string>)
    ensures |r| <= |parts|
    ensures forall i :: 0 <= i < |r| ==> r[i] != "" && !IsSpace(r[i][0])
  {
    if parts == [] then []
    else
      var w := Strip(parts[0]);
      var rest := StrippedNonEmpty(parts[1..]);
      if w == "" then rest else [w] + rest
  }

  /** `[l.strip() for l in parts]`. */
  function StripAll(parts: seq<string>): (r: seq<string>)
    ensures |r| == |parts| && forall i :: 0 <= i < |parts| ==> r[i] == Strip(parts[i])
  {
    if parts == [] then [] else [Strip(parts[0])] + StripAll(parts[1..])
  }

  /**
   * The kept pieces are exactly the parts that strip to something, stripped: every kept piece
   * is the strip of some part, and every non-empty strip of a part is kept.
   */
  lemma {:induction false} StrippedNonEmptyMembers(parts: seq<string>)
    ensures forall w :: w in StrippedNonEmpty(parts) <==> w in StripAll(parts) && w != ""
  {
    if parts == [] {
      assert StrippedNonEmpty(parts) == [];
    } else {
      var rest := parts[1..];
      StrippedNonEmptyMembers(rest);
      var w := Strip(parts[0]);
      assert StripAll(parts) == [w] + StripAll(rest);
      assert StrippedNonEmpty(parts) == if w == "" then StrippedNonEmpty(rest) else [w] + StrippedNonEmpty(rest);
    }
  }

  /** `[l.strip() for l in text.split('\n') if l.strip()]`: the non-blank lines, stripped. */
  function NonBlankLines(text: string): (r: seq<string>)
    ensures forall i :: 0 <= i < |r| ==> r[i] != "" && !IsSpace(r[i][0])
  {
    StrippedNonEmpty(SplitOn(text, "\n"))
  }

  /**
   * The non-blank lines are exactly the lines of the text that strip to something, stripped;
   * `StrippedNonEmptyAppend` adds that they come in the order of the lines.
   */
  lemma NonBlankLinesAreStrippedLines(text: string)
    ensures forall w :: w in NonBlankLines(text) <==> w in StripAll(SplitOn(text, "\n")) && w != ""
  {
    StrippedNonEmptyMembers(SplitOn(text, "\n"));
  }

  /** Filtering keeps the order of the lines: the pieces of `a + b` are those of `a`, then those of `b`. */
  lemma {:induction false} StrippedNonEmptyAppend(a: seq<string>, b: seq<string>)
    ensures StrippedNonEmpty(a + b) == StrippedNonEmpty(a) + StrippedNonEmpty(b)
  {
    if a != [] {
      assert (a + b)[1..] == a[1..] + b;
      StrippedNonEmptyAppend(a[1..], b);
    } else {
      assert a + b == b;
    }
  }

  /** A string that starts with a non-space character has words, and the first starts it. */
  lemma FilledHasWords(s: string)
    requires s != [] && !IsSpace(s[0])
    ensures Words(s) != [] && Words(s)[0] != [] && Words(s)[0][0] == s[0]
  {
    assert LStrip(s) == s;
    assert FirstSpace(s) > 0;
  }

  /** Joining parts whose first part is non-empty starts with that part's first character. */
  lemma JoinHead(parts: seq<string>, sep: string)
    requires parts != [] && parts[0] != []
    ensures Join(parts, sep) != [] && Join(parts, sep)[0] == parts[0][0]
  {
  }
}
