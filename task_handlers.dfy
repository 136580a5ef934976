/**
 * The deterministic text handlers the providers share: word-list translation, sentiment by
 * word presence, first/middle/last-sentence summaries, weighted keywords, and keyword
 * classification. Quality is the string the caller passes; only "high" changes anything.
 *
 * The word-boundary, case-insensitive substitution translation performs is a parameter.
 * Sentence splitting and keyword tokenising are written out exactly for ASCII text.
 */
module TaskHandlers {
  import opened Wrappers
  import opened Text
  import opened StableSort

  // ---------------------------------------------------------------- translation

  const SpanishWords: seq<(string, string)> := [
    ("Hello", "Hola"), ("how are you", "c\U{f3}mo est\U{e1}s"), ("today", "hoy"), ("good", "bueno"),
    ("thank you", "gracias"), ("good morning", "buenos d\U{ed}as"), ("good night", "buenas noches")]

  const FrenchWords: seq<(string, string)> := [
    ("Hello", "Bonjour"), ("how are you", "comment allez-vous"), ("today", "aujourd'hui")]

  /** The word list for a language, in the order the substitutions are applied. */
  function WordMap(language: string): (r: Option<seq<(string, string)>>)
    ensures r.Some? <==> language == "Spanish" || language == "French"
  {
    if language == "Spanish" then Some(SpanishWords)
    else if language == "French" then Some(FrenchWords)
    else None
  }

  /**
   * The substitutions applied one after another; `substitute(text, english, target)` stands
   * for `re.sub(r'\b' + re.escape(english) + r'\b', target, text, flags=re.IGNORECASE)`.
   */
  function SubstituteAll(pairs: seq<(string, string)>, text: string,
                         substitute: (string, string, string) -> string): string
  {
    if pairs == [] then text
    else substitute(SubstituteAll(pairs[..|pairs| - 1], text, substitute), pairs[|pairs| - 1].0, pairs[|pairs| - 1].1)
  }

  /** The tag put before a text nothing was substituted in. */
  function LanguageTag(language: string): string {
    if language == "Spanish" then "[ES] "
    else if language == "French" then "[FR] "
    else "[" + language + "] "
  }

  datatype Translation = Translation(originalText: string, translatedText: string,
                                     targetLanguage: string, sourceLanguage: string)

  /**
   * `translate_text_handler`: apply the language's substitutions in order; when they leave
   * the text as it was, tag the original instead. An unknown language is only tagged.
   */
  method TranslateText(text: string, targetLanguage: string, substitute: (string, string, string) -> string)
    returns (r: Translation)
    ensures r.originalText == text && r.targetLanguage == targetLanguage && r.sourceLanguage == "English"
    ensures WordMap(targetLanguage).None? ==> r.translatedText == "[" + targetLanguage + "] " + text
    ensures WordMap(targetLanguage).Some? ==>
      var substituted := SubstituteAll(WordMap(targetLanguage).value, text, substitute);
      (substituted != text ==> r.translatedText == substituted) &&
      (substituted == text ==> r.translatedText == LanguageTag(targetLanguage) + text)
  {
    var translated := text;
    var pairs := WordMap(targetLanguage);
    if pairs.Some? {
      var i := 0;
      while i < |pairs.value|
        invariant 0 <= i <= |pairs.value|
        invariant translated == SubstituteAll(pairs.value[..i], text, substitute)
      {
        assert pairs.value[..i + 1][..i] == pairs.value[..i];
        translated := substitute(translated, pairs.value[i].0, pairs.value[i].1);
        i := i + 1;
      }
      assert pairs.value[..|pairs.value|] == pairs.value;
    }
    if translated == text {
      if targetLanguage == "Spanish" {
        translated := "[ES] " + text;
      } else if targetLanguage == "French" {
        translated := "[FR] " + text;
      } else {
        translated := "[" + targetLanguage + "] " + text;
      }
    }
    r := Translation(text, translated, targetLanguage, "English");
  }

  // ---------------------------------------------------------------- sentiment

  const PositiveWords: seq<string> := ["love", "loved", "amazing", "great", "excellent", "wonderful",
    "fantastic", "outstanding", "exceptional", "highly", "recommended", "best", "good", "awesome", "brilliant"]

  const NegativeWords: seq<string> := ["hate", "hated", "terrible", "awful", "bad", "worst", "disappointed",
    "poor", "horrible", "disgusting", "annoying"]

  /** `sum(1 for word in words if word in text)`: how many of the words occur in the text. */
  function CountPresent(words: seq<string>, text: string): (r: nat)
    ensures r <= |words|
    ensures r == 0 <==> forall i :: 0 <= i < |words| ==> !Contains(text, words[i])
  {
    if words == [] then 0
    else
      assert forall i :: 1 <= i < |words| ==> words[1..][i - 1] == words[i];
      (if Contains(text, words[0]) then 1 else 0) + CountPresent(words[1..], text)
  }

  datatype Sentiment = Sentiment(sentiment: string, confidence: real, positiveScore: real, negativeScore: real)

  /** `min(0.95, x)`: the smaller of the two. */
  function Capped(x: real): (c: real)
    ensures c <= 0.95 && c <= x
    ensures c == 0.95 || c == x
  {
    if x < 0.95 then x else 0.95
  }

  /** The base confidence of a polar verdict. */
  function PolarBase(quality: string): real {
    if quality == "high" then 0.85 else 0.70
  }

  /** `min(0.95, base + count * 0.03)`: the base raised by three points per word, at most 0.95. */
  function PolarConfidence(quality: string, count: nat): (c: real)
    ensures c <= 0.95 && c <= PolarBase(quality) + count as real * 0.03
    ensures c == 0.95 || c == PolarBase(quality) + count as real * 0.03
    ensures count >= 1 ==> c >= PolarBase(quality) + 0.03
  {
    Capped(PolarBase(quality) + count as real * 0.03)
  }

  /** `part / whole` for a positive whole. */
  function Ratio(part: nat, whole: nat): (q: real)
    requires whole > 0
    ensures q * whole as real == part as real
    ensures 0.0 <= q && (part > 0 ==> 0.0 < q)
  {
    part as real / whole as real
  }

  /** The verdict for given counts of positive and negative words among `words` words. */
  function Verdict(pos: nat, neg: nat, words: nat, quality: string): (r: Sentiment)
    ensures r.sentiment == "positive" <==> pos > neg
    ensures r.sentiment == "negative" <==> neg > pos
    ensures r.sentiment == "neutral" <==> pos == neg
    ensures r.confidence <= 0.95
    ensures r.sentiment == "positive" ==> r.confidence == PolarConfidence(quality, pos)
    ensures r.sentiment == "negative" ==> r.confidence == PolarConfidence(quality, neg)
    ensures r.sentiment == "neutral" ==> r.confidence == (if quality == "high" then 0.75 else 0.65)
    ensures var n := if words > 1 then words else 1;
      r.positiveScore == Ratio(pos, n) && r.negativeScore == Ratio(neg, n)
    ensures var n := if words > 1 then words else 1;
      PerWord(r.positiveScore, pos, n) && PerWord(r.negativeScore, neg, n)
  {
    var n := if words > 1 then words else 1;
    var sentiment := if pos > neg then "positive" else if neg > pos then "negative" else "neutral";
    var confidence :=
      if pos > neg then PolarConfidence(quality, pos)
      else if neg > pos then PolarConfidence(quality, neg)
      else if quality == "high" then 0.75 else 0.65;
    ScoresScale(pos, neg, n);
    Sentiment(sentiment, confidence, Ratio(pos, n), Ratio(neg, n))
  }

  /** `score` is `count` per word: multiplied back by the `n` words it gives the count. */
  predicate PerWord(score: real, count: nat, n: nat) {
    score * n as real == count as real
  }

  /** Both scores, multiplied back by the word count, give the counts. */
  lemma ScoresScale(pos: nat, neg: nat, n: nat)
    requires n > 0
    ensures PerWord(Ratio(pos, n), pos, n) && PerWord(Ratio(neg, n), neg, n)
  {
  }

  /**
   * The verdict on a text for given lists of positive and negative words: the label follows
   * the larger count of listed words present in the lower-cased text.
   */
  function SentimentWith(positive: seq<string>, negative: seq<string>, text: string, quality: string): (r: Sentiment)
    ensures var pos := CountPresent(positive, Lower(text)); var neg := CountPresent(negative, Lower(text));
      && (r.sentiment == "positive" <==> pos > neg)
      && (r.sentiment == "negative" <==> neg > pos)
      && (r.sentiment == "neutral" <==> pos == neg)
      && (r.sentiment == "positive" ==> r.confidence == PolarConfidence(quality, pos))
      && (r.sentiment == "negative" ==> r.confidence == PolarConfidence(quality, neg))
      && (r.sentiment == "neutral" ==> r.confidence == (if quality == "high" then 0.75 else 0.65))
    ensures var n := if |Words(text)| > 1 then |Words(text)| else 1;
      && r.positiveScore == Ratio(CountPresent(positive, Lower(text)), n)
      && r.negativeScore == Ratio(CountPresent(negative, Lower(text)), n)
  {
    Verdict(CountPresent(positive, Lower(text)), CountPresent(negative, Lower(text)), |Words(text)|, quality)
  }

  /**
   * `analyze_sentiment_handler`: the label follows the larger of the two counts of listed
   * words present in the lower-cased text, a polar confidence grows with its count up to
   * 0.95, a tie is neutral with a fixed confidence, and the scores are the counts per word.
   */
  function AnalyzeSentiment(text: string, quality: string): (r: Sentiment)
    ensures var pos := CountPresent(PositiveWords, Lower(text)); var neg := CountPresent(NegativeWords, Lower(text));
      && (r.sentiment == "positive" <==> pos > neg)
      && (r.sentiment == "negative" <==> neg > pos)
      && (r.sentiment == "neutral" <==> pos == neg)
      && (r.sentiment == "positive" ==> r.confidence == PolarConfidence(quality, pos))
      && (r.sentiment == "negative" ==> r.confidence == PolarConfidence(quality, neg))
      && (r.sentiment == "neutral" ==> r.confidence == (if quality == "high" then 0.75 else 0.65))
    ensures var n := if |Words(text)| > 1 then |Words(text)| else 1;
      && r.positiveScore == Ratio(CountPresent(PositiveWords, Lower(text)), n)
      && r.negativeScore == Ratio(CountPresent(NegativeWords, Lower(text)), n)
  {
    SentimentWith(PositiveWords, NegativeWords, text, quality)
  }

  /** A polar verdict needs a listed word of its side; with no listed word at all the verdict is neutral with zero scores. */
  lemma VerdictNeedsListedWord(positive: seq<string>, negative: seq<string>, text: string, quality: string)
    ensures var r := SentimentWith(positive, negative, text, quality);
      && (r.sentiment == "positive" ==> exists i :: 0 <= i < |positive| && Contains(Lower(text), positive[i]))
      && (r.sentiment == "negative" ==> exists i :: 0 <= i < |negative| && Contains(Lower(text), negative[i]))
      && ((forall i :: 0 <= i < |positive| ==> !Contains(Lower(text), positive[i])) &&
          (forall i :: 0 <= i < |negative| ==> !Contains(Lower(text), negative[i])) ==>
            r.sentiment == "neutral" && r.positiveScore == 0.0 && r.negativeScore == 0.0)
  {
    var l := Lower(text);
    var pos, neg := CountPresent(positive, l), CountPresent(negative, l);
    var n := if |Words(text)| > 1 then |Words(text)| else 1;
    if pos == 0 && neg == 0 {
      ZeroRatio(n);
    }
  }

  /** No part of a whole is zero. */
  lemma ZeroRatio(n: nat)
    requires n > 0
    ensures Ratio(0, n) == 0.0
  {
  }

  /**
   * A text is positive only if it contains a listed positive word, negative only if it
   * contains a listed negative word, and neutral with zero scores when it contains neither.
   */
  lemma SentimentNeedsListedWord(text: string, quality: string)
    ensures var r := AnalyzeSentiment(text, quality);
      && (r.sentiment == "positive" ==> exists i :: 0 <= i < |PositiveWords| && Contains(Lower(text), PositiveWords[i]))
      && (r.sentiment == "negative" ==> exists i :: 0 <= i < |NegativeWords| && Contains(Lower(text), NegativeWords[i]))
      && ((forall i :: 0 <= i < |PositiveWords| ==> !Contains(Lower(text), PositiveWords[i])) &&
          (forall i :: 0 <= i < |NegativeWords| ==> !Contains(Lower(text), NegativeWords[i])) ==>
            r.sentiment == "neutral" && r.positiveScore == 0.0 && r.negativeScore == 0.0)
  {
    VerdictNeedsListedWord(PositiveWords, NegativeWords, text, quality);
  }

  /** More matching words never lower a polar confidence. */
  lemma PolarConfidenceMonotone(quality: string, a: nat, b: nat)
    requires a <= b
    ensures PolarConfidence(quality, a) <= PolarConfidence(quality, b)
  {
  }

  // ---------------------------------------------------------------- summary

  predicate IsSentenceEnd(c: char) { c == '.' || c == '!' || c == '?' }

  predicate NoSentenceEnd(p: string) {
    forall k :: 0 <= k < |p| ==> !IsSentenceEnd(p[k])
  }

  /**
   * `text` cut at every `.`, `!` and `?`. Once blank pieces are dropped this is what
   * `re.split(r'[.!?]+', text)` leaves, since a run of enders only adds empty pieces.
   */
  function SplitSentenceEnds(s: string): (r: seq<string>)
    ensures |r| >= 1
    ensures forall i :: 0 <= i < |r| ==> NoSentenceEnd(r[i])
  {
    if s == [] then [""]
    else
      var rest := SplitSentenceEnds(s[1..]);
      if IsSentenceEnd(s[0]) then [""] + rest
      else [[s[0]] + rest[0]] + rest[1..]
  }

  /** The sentences: the stripped, non-blank pieces. */
  function Sentences(text: string): (r: seq<string>)
    ensures forall i :: 0 <= i < |r| ==> r[i] != ""
  {
    StrippedNonEmpty(SplitSentenceEnds(text))
  }

  /**
   * The summary of three or more sentences: the first, for high quality with more than three
   * the middle one, and the last with a closing full stop, joined by ". ".
   */
  function Condensed(sentences: seq<string>, quality: string): (s: string)
    requires |sentences| > 2
    ensures var n := |sentences|;
      s == sentences[0] + (if quality == "high" && n > 3 then ". " + sentences[n / 2] else "") + ". " + sentences[n - 1] + "."
    ensures var n := |sentences|;
      s == if quality == "high" && n > 3 then sentences[0] + ". " + sentences[n / 2] + ". " + sentences[n - 1] + "."
        else sentences[0] + ". " + sentences[n - 1] + "."
    ensures StartsWith(s, sentences[0]) && EndsWith(s, ". " + sentences[|sentences| - 1] + ".")
    ensures var n := |sentences|;
      |s| == |sentences[0]| + |sentences[n - 1]| + 3 +
        (if quality == "high" && n > 3 then |sentences[n / 2]| + 2 else 0)
  {
    var n := |sentences|;
    var middle := if quality == "high" && n > 3 then ". " + sentences[n / 2] else "";
    var head := sentences[0] + middle;
    var tail := ". " + sentences[n - 1] + ".";
    assert (head + tail)[..|sentences[0]|] == sentences[0];
    assert (head + tail)[|head + tail| - |tail|..] == tail;
    HeadTailRegrouped(sentences[0], middle, sentences[n / 2], sentences[n - 1]);
    head + tail
  }

  /** The summary built piece by piece, read as one left-to-right concatenation. */
  lemma HeadTailRegrouped(a: string, middle: string, m: string, b: string)
    requires middle == "" || middle == ". " + m
    ensures middle == "" ==> (a + middle) + (". " + b + ".") == a + ". " + b + "."
    ensures middle != "" ==> (a + middle) + (". " + b + ".") == a + ". " + m + ". " + b + "."
  {
    var l := (a + middle) + (". " + b + ".");
    var r := if middle == "" then a + ". " + b + "." else a + ". " + m + ". " + b + ".";
    assert |l| == |r|;
    forall i | 0 <= i < |l| ensures l[i] == r[i] {
      if i < |a| {
      } else if i < |a| + |middle| {
        assert l[i] == middle[i - |a|];
      } else {
        assert l[i] == (". " + b + ".")[i - |a| - |middle|];
      }
    }
  }

  /** The summary with its lengths; the ratio is a percentage, not rounded. */
  datatype Summary = Summary(summary: string, originalLength: nat, summaryLength: nat, compressionRatio: real)

  /** The summary's length as a percentage of the text's, 0 for an empty text (not rounded). */
  function Compression(summaryLength: nat, textLength: nat): (q: real)
    ensures textLength == 0 ==> q == 0.0
    ensures textLength > 0 ==> q * textLength as real == (summaryLength * 100) as real
    ensures summaryLength <= textLength ==> q <= 100.0
  {
    if textLength == 0 then 0.0
    else
      PercentAtMostWhole(summaryLength, textLength);
      Ratio(summaryLength * 100, textLength)
  }

  /** A part no larger than its whole is at most 100 percent of it. */
  lemma PercentAtMostWhole(part: nat, whole: nat)
    requires 0 < whole
    ensures part <= whole ==> Ratio(part * 100, whole) <= 100.0
  {
    if part <= whole {
      AtMostHundred(Ratio(part * 100, whole), whole as real, (part * 100) as real);
    }
  }

  /** A factor that scales a positive `w` to at most a hundred times `w` is at most a hundred. */
  lemma AtMostHundred(q: real, w: real, x: real)
    requires 0.0 < w && q * w == x && x <= 100.0 * w
    ensures q <= 100.0
  {
    if q > 100.0 {
      PositiveProduct(q - 100.0, w);
    }
  }

  /** The product of two positive reals is positive. */
  lemma PositiveProduct(a: real, b: real)
    requires 0.0 < a && 0.0 < b
    ensures 0.0 < a * b
  {
  }

  /**
   * `summarize_text_handler`: up to two sentences the text is its own summary; otherwise the
   * first sentence, for high quality with more than three sentences the middle one, and the
   * last sentence with a closing full stop.
   */
  function SummarizeText(text: string, quality: string): (r: Summary)
    ensures |Sentences(text)| <= 2 ==> r.summary == text
    ensures |Sentences(text)| > 2 ==> r.summary == Condensed(Sentences(text), quality)
    ensures var s := Sentences(text); var n := |s|;
      n > 2 ==>
        && StartsWith(r.summary, s[0]) && EndsWith(r.summary, ". " + s[n - 1] + ".")
        && (quality == "high" && n > 3 ==> r.summary == s[0] + ". " + s[n / 2] + ". " + s[n - 1] + ".")
        && (quality != "high" || n == 3 ==> r.summary == s[0] + ". " + s[n - 1] + ".")
    ensures r.originalLength == |text| && r.summaryLength == |r.summary|
    ensures r.compressionRatio == Compression(|r.summary|, |text|)
  {
    var sentences := Sentences(text);
    var summary := if |sentences| <= 2 then text else Condensed(sentences, quality);
    Summary(summary, |text|, |summary|, Compression(|summary|, |text|))
  }

  /** A sentence as `Sentences` leaves it: non-empty, no whitespace at either end, no ender inside. */
  predicate CleanSentence(x: string) {
    x != "" && !IsSpace(x[0]) && !IsSpace(x[|x| - 1]) && NoSentenceEnd(x)
  }

  /** Stripping a piece without enders leaves a clean sentence or nothing. */
  lemma StripPieceIsClean(p: string)
    requires NoSentenceEnd(p) && Strip(p) != ""
    ensures CleanSentence(Strip(p))
  {
    var l := LStrip(p);
    var w := RStrip(l);
    var n := |p| - |l|;
    assert l == p[n..];
    forall k | 0 <= k < |w| ensures !IsSentenceEnd(w[k]) {
      assert w[k] == l[k] == p[n..][k];
    }
  }

  /** Every sentence of a text is clean. */
  lemma SentencesAreClean(text: string)
    ensures forall i :: 0 <= i < |Sentences(text)| ==> CleanSentence(Sentences(text)[i])
  {
    var parts := SplitSentenceEnds(text);
    var r := Sentences(text);
    assert r == StrippedNonEmpty(parts);
    StrippedNonEmptyMembers(parts);
    forall i | 0 <= i < |r| ensures CleanSentence(r[i]) {
      assert r[i] in StripAll(parts);
      var j :| 0 <= j < |parts| && StripAll(parts)[j] == r[i];
      StripPieceIsClean(parts[j]);
    }
  }

  /** `StrippedNonEmpty` one piece at a time. */
  lemma StrippedCons(x: string, tail: seq<string>)
    ensures StrippedNonEmpty([x] + tail) ==
      if Strip(x) == "" then StrippedNonEmpty(tail) else [Strip(x)] + StrippedNonEmpty(tail)
  {
    assert ([x] + tail)[1..] == tail;
  }

  /** Cutting at an ender that follows a text without enders. */
  lemma {:induction false} SplitAfterClean(x: string, y: string)
    requires NoSentenceEnd(x)
    ensures SplitSentenceEnds(x + "." + y) == [x] + SplitSentenceEnds(y)
  {
    if x != [] {
      SplitAfterClean(x[1..], y);
      assert (x + "." + y)[1..] == x[1..] + "." + y;
      assert [x[0]] + x[1..] == x;
    } else {
      assert x + "." + y == "." + y;
    }
  }

  /** A clean sentence after one space strips to itself. */
  lemma StripSpaced(x: string)
    requires x != [] && !IsSpace(x[0]) && !IsSpace(x[|x| - 1])
    ensures Strip(" " + x) == x
  {
    var y := " " + x;
    assert y[1..] == x;
    assert LStrip(y) == LStrip(x);
    StripTrimmed(x);
  }

  /** "a. b." regrouped at its full stops. */
  lemma RegroupTwo(a: string, b: string)
    ensures a + ". " + b + "." == a + "." + ((" " + b) + "." + "")
  {
    var l, r := a + ". " + b + ".", a + "." + ((" " + b) + "." + "");
    assert |l| == |r|;
    forall i | 0 <= i < |l| ensures l[i] == r[i] {
      if i < |a| + 2 {
      } else {
        assert l[i] == (b + ".")[i - |a| - 2];
      }
    }
  }

  /** "a. b. c." regrouped at its full stops. */
  lemma RegroupThree(a: string, b: string, c: string)
    ensures a + ". " + b + ". " + c + "." == a + "." + ((" " + b) + "." + ((" " + c) + "." + ""))
  {
    var l, r := a + ". " + b + ". " + c + ".", a + "." + ((" " + b) + "." + ((" " + c) + "." + ""));
    assert |l| == |r|;
    forall i | 0 <= i < |l| ensures l[i] == r[i] {
      if i < |a| + 2 {
      } else if i < |a| + 2 + |b| + 2 {
        assert l[i] == (b + ". ")[i - |a| - 2];
        assert r[i] == ((" " + b) + "." + ((" " + c) + "." + ""))[i - |a| - 1];
      } else {
        assert l[i] == (c + ".")[i - |a| - |b| - 4];
        assert r[i] == ((" " + c) + "." + "")[i - |a| - |b| - 3];
      }
    }
  }

  /** A piece without enders stays without them after a leading space. */
  lemma SpacedNoEnd(x: string)
    requires NoSentenceEnd(x)
    ensures NoSentenceEnd(" " + x)
  {
    forall k | 0 <= k < |" " + x| ensures !IsSentenceEnd((" " + x)[k]) {
      if k > 0 { assert (" " + x)[k] == x[k - 1]; }
    }
  }

  /** "a. b." cuts into a, " b" and an empty tail. */
  lemma SplitOfTwo(a: string, b: string)
    requires NoSentenceEnd(a) && NoSentenceEnd(b)
    ensures SplitSentenceEnds(a + ". " + b + ".") == [a] + ([" " + b] + [""])
  {
    RegroupTwo(a, b);
    SpacedNoEnd(b);
    SplitAfterClean(a, (" " + b) + "." + "");
    SplitAfterClean(" " + b, "");
  }

  /** "a. b. c." cuts into a, " b", " c" and an empty tail. */
  lemma SplitOfThree(a: string, b: string, c: string)
    requires NoSentenceEnd(a) && NoSentenceEnd(b) && NoSentenceEnd(c)
    ensures SplitSentenceEnds(a + ". " + b + ". " + c + ".") == [a] + ([" " + b] + ([" " + c] + [""]))
  {
    RegroupThree(a, b, c);
    SpacedNoEnd(b);
    SpacedNoEnd(c);
    SplitAfterClean(a, (" " + b) + "." + ((" " + c) + "." + ""));
    SplitAfterClean(" " + b, (" " + c) + "." + "");
    SplitAfterClean(" " + c, "");
  }

  /** A clean sentence strips to itself, also after one space. */
  lemma StripClean(x: string)
    requires CleanSentence(x)
    ensures Strip(x) == x && Strip(" " + x) == x
  {
    StripTrimmed(x);
    StripSpaced(x);
  }

  /** Dropping the empty tail piece. */
  lemma StrippedEmptyTail()
    ensures StrippedNonEmpty([""]) == []
  {
    StrippedCons("", []);
  }

  lemma ListOfTwo(a: string, b: string)
    ensures [a] + ([b] + []) == [a, b]
  {
    var l := [a] + ([b] + []);
    assert l[0] == a && l[1] == b;
  }

  lemma ListOfThree(a: string, b: string, c: string)
    ensures [a] + ([b] + ([c] + [])) == [a, b, c]
  {
    var l := [a] + ([b] + ([c] + []));
    assert l[0] == a && l[1] == b && l[2] == c;
  }

  /** Sentences from two pieces that strip to `a` and `b`, then an empty one. */
  lemma SentencesFromTwoPieces(t: string, x: string, y: string, a: string, b: string)
    requires SplitSentenceEnds(t) == [x] + ([y] + [""])
    requires Strip(x) == a && Strip(y) == b && a != "" && b != ""
    ensures Sentences(t) == [a, b]
  {
    StrippedEmptyTail();
    StrippedCons(y, [""]);
    StrippedCons(x, [y] + [""]);
    ListOfTwo(a, b);
  }

  /** Sentences from three pieces that strip to `a`, `b` and `c`, then an empty one. */
  lemma SentencesFromThreePieces(t: string, x: string, y: string, z: string, a: string, b: string, c: string)
    requires SplitSentenceEnds(t) == [x] + ([y] + ([z] + [""]))
    requires Strip(x) == a && Strip(y) == b && Strip(z) == c && a != "" && b != "" && c != ""
    ensures Sentences(t) == [a, b, c]
  {
    StrippedEmptyTail();
    StrippedCons(z, [""]);
    StrippedCons(y, [z] + [""]);
    StrippedCons(x, [y] + ([z] + [""]));
    ListOfThree(a, b, c);
  }

  /** The sentences of "a. b." are a and b. */
  lemma SentencesOfTwo(a: string, b: string)
    requires CleanSentence(a) && CleanSentence(b)
    ensures Sentences(a + ". " + b + ".") == [a, b]
  {
    SplitOfTwo(a, b);
    StripClean(a);
    StripClean(b);
    SentencesFromTwoPieces(a + ". " + b + ".", a, " " + b, a, b);
  }

  /** The sentences of "a. b. c." are a, b and c. */
  lemma SentencesOfThree(a: string, b: string, c: string)
    requires CleanSentence(a) && CleanSentence(b) && CleanSentence(c)
    ensures Sentences(a + ". " + b + ". " + c + ".") == [a, b, c]
  {
    SplitOfThree(a, b, c);
    StripClean(a);
    StripClean(b);
    StripClean(c);
    SentencesFromThreePieces(a + ". " + b + ". " + c + ".", a, " " + b, " " + c, a, b, c);
  }

  /**
   * A summary holds exactly the sentences it picked: the first, the middle one for high
   * quality with more than three, and the last. So a basic summary, or one of exactly three
   * sentences, is its own summary.
   */
  lemma SummaryKeepsPickedSentences(text: string, quality: string)
    requires |Sentences(text)| > 2
    ensures var s := Sentences(text); var n := |s|;
      Sentences(SummarizeText(text, quality).summary) ==
        if quality == "high" && n > 3 then [s[0], s[n / 2], s[n - 1]] else [s[0], s[n - 1]]
    ensures quality != "high" || |Sentences(text)| == 3 ==>
      SummarizeText(SummarizeText(text, quality).summary, quality).summary == SummarizeText(text, quality).summary
  {
    var s := Sentences(text);
    var n := |s|;
    SentencesAreClean(text);
    if quality == "high" && n > 3 {
      SentencesOfThree(s[0], s[n / 2], s[n - 1]);
    } else {
      SentencesOfTwo(s[0], s[n - 1]);
    }
  }

  // ---------------------------------------------------------------- keywords

  const StopWords: set<string> := {"the", "a", "an", "and", "or", "but", "in", "on", "at", "to", "for", "of",
    "with", "by", "is", "are", "was", "were", "be", "been", "being", "this", "that", "these", "those"}

  /** A character `\b` counts as part of a word. */
  predicate IsWordChar(c: char) { IsAlpha(c) || IsDigit(c) || c == '_' }

  /** The end of the run of letters starting at `i`. */
  function LetterRunEnd(s: string, i: nat): (j: nat)
    requires i <= |s|
    ensures i <= j <= |s|
    ensures forall k :: i <= k < j ==> IsAlpha(s[k])
    ensures j < |s| ==> !IsAlpha(s[j])
    decreases |s| - i
  {
    if i == |s| || !IsAlpha(s[i]) then i else LetterRunEnd(s, i + 1)
  }

  /**
   * `re.findall(r'\b[A-Za-z]{3,}\b', s[i..])` read from index `i`: runs of at least three
   * letters with no word character on either side.
   */
  function TokensFrom(s: string, i: nat): (r: seq<string>)
    requires i <= |s|
    ensures forall k :: 0 <= k < |r| ==> |r[k]| >= 3 && AllAlpha(r[k])
    decreases |s| - i
  {
    if i == |s| then []
    else if IsAlpha(s[i]) && (i == 0 || !IsWordChar(s[i - 1])) then
      var j := LetterRunEnd(s, i);
      var here := if j - i >= 3 && (j == |s| || !IsWordChar(s[j])) then [s[i..j]] else [];
      here + TokensFrom(s, j)
    else TokensFrom(s, i + 1)
  }

  function Tokens(text: string): (r: seq<string>)
    ensures forall k :: 0 <= k < |r| ==> |r[k]| >= 3 && AllAlpha(r[k])
  {
    TokensFrom(text, 0)
  }

  /** A capitalised occurrence weighs 2, any other 1. */
  function Weight(token: string): (w: nat)
    ensures w == 1 || w == 2
  {
    if token != "" && IsUpper(token[0]) then 2 else 1
  }

  /** The weight recorded for `word` in a frequency list, 0 when absent. */
  function FreqOf(freq: seq<(string, nat)>, word: string): nat {
    if freq == [] then 0
    else if freq[0].0 == word then freq[0].1
    else FreqOf(freq[1..], word)
  }

  predicate DistinctKeys(freq: seq<(string, nat)>) {
    forall i, j :: 0 <= i < j < |freq| ==> freq[i].0 != freq[j].0
  }

  /** `word_freq[w] = word_freq.get(w, 0) + weight`: a new key goes last. */
  function Bump(freq: seq<(string, nat)>, word: string, weight: nat): (r: seq<(string, nat)>)
    ensures FreqOf(r, word) == FreqOf(freq, word) + weight
    ensures forall w :: w != word ==> FreqOf(r, w) == FreqOf(freq, w)
    ensures forall i :: 0 <= i < |r| ==> r[i].0 == word || exists j :: 0 <= j < |freq| && freq[j] == r[i]
  {
    if freq == [] then [(word, weight)]
    else if freq[0].0 == word then [(word, freq[0].1 + weight)] + freq[1..]
    else
      var rest := Bump(freq[1..], word, weight);
      assert forall i :: 1 <= i < |freq| ==> freq[1..][i - 1] == freq[i];
      [freq[0]] + rest
  }

  /** Bumping a word keeps the keys of a frequency list distinct. */
  lemma {:induction false} BumpDistinct(freq: seq<(string, nat)>, word: string, weight: nat)
    requires DistinctKeys(freq)
    ensures DistinctKeys(Bump(freq, word, weight))
  {
    if freq != [] && freq[0].0 != word {
      var tail := freq[1..];
      assert forall i :: 0 <= i < |tail| ==> tail[i] == freq[i + 1];
      BumpDistinct(tail, word, weight);
      var rest := Bump(tail, word, weight);
      forall i | 0 <= i < |rest| ensures rest[i].0 != freq[0].0 {
        if rest[i].0 != word {
          var j :| 0 <= j < |tail| && tail[j] == rest[i];
          assert freq[j + 1] == rest[i];
        }
      }
      var r := Bump(freq, word, weight);
      assert r == [freq[0]] + rest;
      forall a, b | 0 <= a < b < |r| ensures r[a].0 != r[b].0 {
        if a > 0 {
          assert r[a] == rest[a - 1] && r[b] == rest[b - 1];
        } else {
          assert r[b] == rest[b - 1];
        }
      }
    }
  }

  /** The frequency list after counting `tokens` in order; stop words are skipped. */
  function Frequencies(tokens: seq<string>): (r: seq<(string, nat)>)
    ensures DistinctKeys(r)
    ensures forall i :: 0 <= i < |r| ==> r[i].0 !in StopWords
  {
    if tokens == [] then []
    else
      var prev := Frequencies(tokens[..|tokens| - 1]);
      var last := tokens[|tokens| - 1];
      if Lower(last) in StopWords then prev
      else
        BumpDistinct(prev, Lower(last), Weight(last));
        Bump(prev, Lower(last), Weight(last))
  }

  /** The total weight of the counted occurrences of `word` in `tokens`. */
  function TotalWeight(tokens: seq<string>, word: string): nat {
    if tokens == [] then 0
    else
      var last := tokens[|tokens| - 1];
      TotalWeight(tokens[..|tokens| - 1], word) +
        (if Lower(last) == word && word !in StopWords then Weight(last) else 0)
  }

  /** The frequency list records, for every word, the total weight of its occurrences. */
  lemma {:induction false} FrequenciesCount(tokens: seq<string>, word: string)
    ensures FreqOf(Frequencies(tokens), word) == TotalWeight(tokens, word)
  {
    if tokens != [] {
      FrequenciesCount(tokens[..|tokens| - 1], word);
    }
  }

  /** In a list with distinct keys, an entry's weight is what `FreqOf` reads for its key. */
  lemma {:induction false} FreqOfMember(freq: seq<(string, nat)>, i: nat)
    requires DistinctKeys(freq) && i < |freq|
    ensures FreqOf(freq, freq[i].0) == freq[i].1
  {
    if i > 0 {
      assert freq[1..][i - 1] == freq[i];
      FreqOfMember(freq[1..], i - 1);
    }
  }

  function Score(entry: (string, nat)): real { entry.1 as real }

  /**
   * `extract_keywords_handler`: count the tokens that are not stop words, sort by weight
   * (stable, descending) and keep the first 15 for high quality, 10 otherwise. The scores
   * are the kept entries, so their keys are exactly the keywords.
   */
  method ExtractKeywords(text: string, quality: string) returns (keywords: seq<string>, scores: seq<(string, nat)>)
    ensures var freq := Frequencies(Tokens(text)); var limit := if quality == "high" then 15 else 10;
      |scores| == (if |freq| < limit then |freq| else limit) &&
      scores == SortDesc(freq, Score)[..|scores|]
    ensures |keywords| == |scores| && forall k :: 0 <= k < |scores| ==> keywords[k] == scores[k].0
    ensures forall a, b :: 0 <= a < b < |scores| ==> scores[a].1 >= scores[b].1
    ensures forall k :: 0 <= k < |scores| ==>
      scores[k].1 == TotalWeight(Tokens(text), keywords[k]) && scores[k].1 > 0 && keywords[k] !in StopWords
  {
    var words := Tokens(text);
    var freq := CountFrequencies(words);
    var limit := if quality == "high" then 15 else 10;
    var sorted := SortDesc(freq, Score);
    SortDescCorrect(freq, Score);
    scores := if |sorted| <= limit then sorted else sorted[..limit];
    keywords := seq(|scores|, k requires 0 <= k < |scores| => scores[k].0);
    RankedEntriesAreTotals(words, sorted);
    forall k | 0 <= k < |scores|
      ensures scores[k].1 == TotalWeight(words, keywords[k]) && scores[k].1 > 0 && keywords[k] !in StopWords
    {
      assert scores[k] == sorted[k];
    }
  }

  /** The counting loop of `extract_keywords_handler`: one pass over the tokens, skipping stop words. */
  method CountFrequencies(words: seq<string>) returns (freq: seq<(string, nat)>)
    ensures freq == Frequencies(words)
  {
    freq := [];
    var i := 0;
    while i < |words|
      invariant 0 <= i <= |words|
      invariant freq == Frequencies(words[..i])
    {
      assert words[..i + 1][..i] == words[..i];
      var lower := Lower(words[i]);
      if lower !in StopWords {
        freq := Bump(freq, lower, Weight(words[i]));
      }
      i := i + 1;
    }
    assert words[..|words|] == words;
  }

  /** Every entry of a reordering of the frequency list is a word that is not a stop word, with its total weight, which is positive. */
  lemma RankedEntriesAreTotals(words: seq<string>, ranked: seq<(string, nat)>)
    requires multiset(ranked) == multiset(Frequencies(words))
    ensures forall k :: 0 <= k < |ranked| ==>
      ranked[k].1 == TotalWeight(words, ranked[k].0) && ranked[k].1 > 0 && ranked[k].0 !in StopWords
  {
    var freq := Frequencies(words);
    forall k | 0 <= k < |ranked|
      ensures ranked[k].1 == TotalWeight(words, ranked[k].0) && ranked[k].1 > 0 && ranked[k].0 !in StopWords
    {
      assert ranked[k] in multiset(freq);
      var j :| 0 <= j < |freq| && freq[j] == ranked[k];
      FreqOfMember(freq, j);
      FrequenciesCount(words, ranked[k].0);
      FrequencyPositive(words, j);
    }
  }

  /** Every recorded weight is positive. */
  lemma {:induction false} FrequencyPositive(tokens: seq<string>, j: nat)
    requires j < |Frequencies(tokens)|
    ensures Frequencies(tokens)[j].1 > 0
  {
    if tokens != [] {
      var prev := Frequencies(tokens[..|tokens| - 1]);
      var last := tokens[|tokens| - 1];
      if Lower(last) !in StopWords {
        var r := Frequencies(tokens);
        var w := Lower(last);
        if r[j].0 == w {
          FreqOfMember(r, j);
        } else {
          var i :| 0 <= i < |prev| && prev[i] == r[j];
          FrequencyPositive(tokens[..|tokens| - 1], i);
        }
      } else {
        FrequencyPositive(tokens[..|tokens| - 1], j);
      }
    }
  }

  // ---------------------------------------------------------------- classification

  const TechnologyKeywords: seq<string> :=
    ["technology", "software", "computer", "digital", "AI", "machine learning", "algorithm", "programming", "code"]

  const Categories: seq<(string, seq<string>)> := [
    ("technology", TechnologyKeywords),
    ("finance", ["stock", "market", "investment", "financial", "economy", "money", "business", "trading", "currency"]),
    ("healthcare", ["health", "medical", "patient", "hospital", "treatment", "disease", "medicine", "doctor"]),
    ("education", ["education", "school", "student", "learn", "study", "university", "teacher", "course"]),
    ("sports", ["sport", "game", "player", "team", "match", "championship", "tournament"]),
    ("news", ["news", "report", "announcement", "update", "breaking", "journalism"])]

  /**
   * The scores as `classify_text_handler` computes them: the categories with at least one
   * keyword in the lower-cased text, in order, each keyword compared as written.
   */
  function CategoryScores(categories: seq<(string, seq<string>)>, textLower: string): (r: seq<(string, real)>)
    ensures |r| <= |categories|
    ensures forall i :: 0 <= i < |r| ==> 0.0 < r[i].1
  {
    if categories == [] then []
    else
      var prev := CategoryScores(categories[..|categories| - 1], textLower);
      var last := categories[|categories| - 1];
      var hits := CountPresent(last.1, textLower);
      if hits > 0 then prev + [(last.0, Ratio(hits, |last.1|))] else prev
  }

  /** Python's `max` by score: the first entry with the largest score. */
  function FirstMax(scores: seq<(string, real)>): (k: nat)
    requires scores != []
    ensures k < |scores|
    ensures forall j :: 0 <= j < |scores| ==> scores[j].1 <= scores[k].1
    ensures forall j :: 0 <= j < k ==> scores[j].1 < scores[k].1
  {
    if |scores| == 1 then 0
    else
      var k := FirstMax(scores[..|scores| - 1]);
      if scores[|scores| - 1].1 > scores[k].1 then |scores| - 1 else k
  }

  /** The confidence of a category: the base for the quality raised by a tenth of its score, at most 0.95. */
  function ClassConfidence(quality: string, score: real): (c: real)
    ensures c <= 0.95
    ensures c == 0.95 || c == (if quality == "high" then 0.9 else 0.7) + score * 0.1
  {
    Capped((if quality == "high" then 0.9 else 0.7) + score * 0.1)
  }

  datatype Classification = Classification(category: string, confidence: real, allScores: seq<(string, real)>)

  /**
   * `classify_text_handler`: score every category by the share of its keywords found in the
   * lower-cased text, each keyword compared as written, and pick the first best one, its
   * confidence the base raised by a tenth of its score, at most 0.95; with no hit at all the
   * text is "general".
   */
  method ClassifyText(text: string, quality: string) returns (r: Classification)
    ensures r.allScores == CategoryScores(Categories, Lower(text))
    ensures r.allScores == [] ==> r == Classification("general", 0.5, [])
    ensures r.allScores != [] ==>
      var k := FirstMax(r.allScores);
      && r.category == r.allScores[k].0
      && (forall j :: 0 <= j < |r.allScores| ==> r.allScores[j].1 <= r.allScores[k].1)
      && r.confidence == ClassConfidence(quality, r.allScores[k].1)
  {
    r := ClassifyWith(Categories, Lower(text), quality);
  }

  /** The classification over given categories of an already lower-cased text. */
  method ClassifyWith(categories: seq<(string, seq<string>)>, textLower: string, quality: string) returns (r: Classification)
    ensures r.allScores == CategoryScores(categories, textLower)
    ensures r.allScores == [] ==> r == Classification("general", 0.5, [])
    ensures r.allScores != [] ==>
      var k := FirstMax(r.allScores);
      && r.category == r.allScores[k].0
      && (forall j :: 0 <= j < |r.allScores| ==> r.allScores[j].1 <= r.allScores[k].1)
      && r.confidence == ClassConfidence(quality, r.allScores[k].1)
  {
    var scores := ScoreCategories(categories, textLower);
    if scores != [] {
      var best := scores[FirstMax(scores)];
      r := Classification(best.0, ClassConfidence(quality, best.1), scores);
    } else {
      r := Classification("general", 0.5, []);
    }
  }

  /** The scoring loop over `categories`, in order. */
  method ScoreCategories(categories: seq<(string, seq<string>)>, textLower: string) returns (scores: seq<(string, real)>)
    ensures scores == CategoryScores(categories, textLower)
  {
    scores := [];
    for i := 0 to |categories|
      invariant scores == CategoryScores(categories[..i], textLower)
    {
      assert categories[..i + 1][..i] == categories[..i];
      var keywords := categories[i].1;
      var hits := CountPresent(keywords, textLower);
      if hits > 0 {
        scores := scores + [(categories[i].0, Ratio(hits, |keywords|))];
      }
    }
    assert categories[..|categories|] == categories;
  }

  /** The keyword "AI" is looked for in lower-cased text, so it can never be found. */
  lemma UpperKeywordNeverFound(text: string)
    ensures !Contains(Lower(text), "AI")
  {
    var l := Lower(text);
    forall j | 0 <= j && j + 2 <= |l|
      ensures !OccursAt(l, "AI", j)
    {
      assert !IsUpper(l[j]);
    }
  }

  /** A text saying only "AI" is classified as "general", though "AI" is a technology keyword. */
  lemma AiTextIsGeneral()
    ensures CategoryScores(Categories, Lower("AI")) == []
  {
    assert Lower("AI") == "ai";
    MissesAi(Categories[0].1);
    MissesAi(Categories[1].1);
    MissesAi(Categories[2].1);
    MissesAi(Categories[3].1);
    MissesAi(Categories[4].1);
    MissesAi(Categories[5].1);
    NoHitsNoScores(Categories, "ai");
  }

  /** Keywords that are all longer than "ai", apart from "AI" itself, never occur in "ai". */
  lemma MissesAi(keywords: seq<string>)
    requires forall k :: 0 <= k < |keywords| ==> keywords[k] == "AI" || |keywords[k]| > 2
    ensures forall k :: 0 <= k < |keywords| ==> !Contains("ai", keywords[k])
  {
    forall k | 0 <= k < |keywords| ensures !Contains("ai", keywords[k]) {
      if keywords[k] == "AI" {
        UpperKeywordNeverFound("AI");
        assert Lower("AI") == "ai";
      }
    }
  }

  lemma {:induction false} NoHitsNoScores(categories: seq<(string, seq<string>)>, textLower: string)
    requires forall c, k :: 0 <= c < |categories| && 0 <= k < |categories[c].1| ==> !Contains(textLower, categories[c].1[k])
    ensures CategoryScores(categories, textLower) == []
  {
    if categories != [] {
      NoHitsNoScores(categories[..|categories| - 1], textLower);
    }
  }

  /** Every keyword lower-cased. */
  function LowerAll(words: seq<string>): (r: seq<string>)
    ensures |r| == |words| && forall k :: 0 <= k < |r| ==> r[k] == Lower(words[k])
  {
    seq(|words|, k requires 0 <= k < |words| => Lower(words[k]))
  }

  /** The intended scoring: keywords are lower-cased too, so every keyword can match. */
  function IntendedCategoryScores(categories: seq<(string, seq<string>)>, textLower: string): (r: seq<(string, real)>)
    ensures |r| <= |categories|
    ensures forall i :: 0 <= i < |r| ==> 0.0 < r[i].1
  {
    if categories == [] then []
    else
      var prev := IntendedCategoryScores(categories[..|categories| - 1], textLower);
      var last := categories[|categories| - 1];
      var hits := CountPresent(LowerAll(last.1), textLower);
      if hits > 0 then prev + [(last.0, Ratio(hits, |last.1|))] else prev
  }

  /** With the intended scoring, a text consisting of one keyword scores that keyword's category. */
  lemma KeywordAloneHits(words: seq<string>, k: nat)
    requires k < |words|
    ensures CountPresent(LowerAll(words), Lower(words[k])) > 0
  {
    var l := Lower(words[k]);
    assert LowerAll(words)[k] == l;
    assert l[0..|l|] == l;
    assert OccursAt(l, l, 0);
  }

  /** Under the intended scoring a text saying "AI" counts for technology, the first category. */
  lemma AiTextIsTechnology()
    ensures IntendedCategoryScores(Categories, Lower("AI")) != []
    ensures IntendedCategoryScores(Categories, Lower("AI"))[0].0 == "technology"
  {
    assert TechnologyKeywords[4] == "AI";
    KeywordAloneHits(TechnologyKeywords, 4);
    IntendedKeepsFirst(Categories, Lower("AI"));
  }

  lemma {:induction false} IntendedKeepsFirst(categories: seq<(string, seq<string>)>, textLower: string)
    requires categories != []
    requires CountPresent(LowerAll(categories[0].1), textLower) > 0
    ensures IntendedCategoryScores(categories, textLower) != []
    ensures IntendedCategoryScores(categories, textLower)[0].0 == categories[0].0
  {
    if |categories| > 1 {
      var p := categories[..|categories| - 1];
      assert p[0] == categories[0];
      IntendedKeepsFirst(p, textLower);
    }
  }
}
