/** The lexicon-based sentiment scorer of src/lib/sentiment.ts: text is
    lower-cased, every character outside [a-z0-9] and whitespace becomes a
    space, the result is split into tokens, tokens are scored against two word
    lists and mapped to categories, intensifiers push the polarity further,
    the score is normalised by the token count and clamped, a label is chosen
    with thresholds of 0.15, and suggestions are drawn from a fixed library. */
module Sentiment {
  import opened Common
  import opened Domain

  // ---------------------------------------------------------------------
  // Lexicon tables
  // ---------------------------------------------------------------------

  const PositiveWords: seq<string> := [
    "great", "excellent", "fantastic", "positive", "responsive", "quick", "helpful", "professional",
    "clear", "fast", "amazing", "love", "good", "outstanding", "perfect", "recommend"]

  const NegativeWords: seq<string> := [
    "bad", "poor", "slow", "confusing", "late", "unprofessional", "negative", "issue",
    "problem", "bug", "delay", "frustrating", "terrible", "worst", "hate", "expensive"]

  /** The own keys of categoryMap and the category each maps to. */
  const CategoryMap: map<string, string> := map[
    "communication" := "communication",
    "respond" := "responsiveness",
    "responsive" := "responsiveness",
    "speed" := "timeliness",
    "slow" := "timeliness",
    "late" := "timeliness",
    "deadline" := "timeliness",
    "quality" := "quality",
    "bug" := "quality",
    "issue" := "quality",
    "design" := "quality",
    "ui" := "quality",
    "price" := "pricing",
    "expensive" := "pricing",
    "cost" := "pricing",
    "professional" := "professionalism",
    "unprofessional" := "professionalism",
    "clear" := "clarity",
    "confusing" := "clarity"]

  const SuggestionLibrary: map<string, seq<string>> := map[
    "communication" := [
      "Set clearer edsadssaxpectations at project start",
      "Provide structured progress updates (daily or milestone-based)",
      "Confirm understanding by summarizing client requests"],
    "responsiveness" := [
      "Acknowledge messages within agreed SLA (e.g., 4h)",
      "Use templated quick replies for common queries",
      "Clarify availability windows in your profile"],
    "timeliness" := [
      "Break tasks into smaller deliverables with mini-deadlines",
      "Proactively flag delays before they happen",
      "Add buffer time to estimates (10-15%)"],
    "quality" := [
      "Introduce a pre-delivery QA checklist",
      "Use automated linting/testing before handoff",
      "Ask for a brief quality score after each milestone"],
    "pricing" := [
      "Offer tiered package options to align expectations",
      "Explain ROI of your rate with outcome metrics",
      "Review competitor positioning quarterly"],
    "professionalism" := [
      "Maintain consistent tone: concise + courteous",
      "Document decisions and agreements clearly",
      "Set boundaries for scope changes early"],
    "clarity" := [
      "Use bullets & headers in proposals/deliverables",
      "Provide loom/video walkthroughs for complex parts",
      "Ask targeted clarification questions instead of assuming"]]

  const Intensifiers: seq<string> := ["very", "extremely", "highly"]

  /** The values of categoryMap. */
  const CategoryNames: seq<string> := [
    "communication", "responsiveness", "timeliness", "quality", "pricing", "professionalism", "clarity"]

  /** Every category a token maps to is one of the seven names, is not empty,
      contains no colon and has a library entry of three suggestions. */
  lemma CategoryMapInto(t: string)
    requires t in CategoryMap
    ensures CategoryMap[t] in CategoryNames && CategoryMap[t] in SuggestionLibrary
    ensures |SuggestionLibrary[CategoryMap[t]]| == 3
    ensures CategoryMap[t] != "" && ':' !in CategoryMap[t]
  {
  }

  /** The seven names are exactly the values of categoryMap. */
  lemma CategoryNamesAreTheValues()
    ensures forall c :: c in CategoryNames <==> c in CategoryMap.Values
  {
    assert CategoryMap["communication"] == "communication";
    assert CategoryMap["respond"] == "responsiveness";
    assert CategoryMap["speed"] == "timeliness";
    assert CategoryMap["quality"] == "quality";
    assert CategoryMap["price"] == "pricing";
    assert CategoryMap["professional"] == "professionalism";
    assert CategoryMap["clear"] == "clarity";
  }

  // ---------------------------------------------------------------------
  // Cleaning and tokenising
  // ---------------------------------------------------------------------

  /** toLowerCase on one ASCII character. */
  function LowerAscii(c: char): (l: char)
    ensures 'A' <= c <= 'Z' ==> 'a' <= l <= 'z' && l as int == c as int + 32
    ensures !('A' <= c <= 'Z') ==> l == c
  {
    if 'A' <= c <= 'Z' then (c as int + 32) as char else c
  }

  predicate IsWordChar(c: char)
  {
    ('a' <= c <= 'z') || ('0' <= c <= '9')
  }

  /** One character of `text.toLowerCase().replace(/[^a-z0-9\s]/g, " ")`. */
  function CleanChar(c: char): (d: char)
    ensures IsWordChar(d) || IsSpace(d)
    ensures IsWordChar(d) <==> IsWordChar(LowerAscii(c))
  {
    var l := LowerAscii(c);
    if IsWordChar(l) || IsSpace(l) then l else ' '
  }

  function Cleaned(text: string): (r: string)
    ensures |r| == |text|
    ensures forall i :: 0 <= i < |text| ==> r[i] == CleanChar(text[i])
  {
    if text == [] then [] else [CleanChar(text[0])] + Cleaned(text[1..])
  }

  /** Length of the run of non-whitespace characters at the start of s. */
  function WordLength(s: string): (n: nat)
    ensures n <= |s|
    ensures forall i :: 0 <= i < n ==> !IsSpace(s[i])
    ensures n < |s| ==> IsSpace(s[n])
  {
    if s == [] || IsSpace(s[0]) then 0 else 1 + WordLength(s[1..])
  }

  /** `s.split(/\s+/).filter(Boolean)`: the maximal runs of non-whitespace
      characters, in order. */
  function Tokens(s: string): (ts: seq<string>)
    ensures forall k :: 0 <= k < |ts| ==> ts[k] != [] && forall i :: 0 <= i < |ts[k]| ==> !IsSpace(ts[k][i])
    ensures ts == [] <==> AllSpace(s)
    decreases |s|
  {
    var a := LeadingSpaces(s);
    if a == |s| then
      assert s[..a] == s;
      []
    else
      var u := s[a..];
      var w := WordLength(u);
      assert w > 0 by { assert u[0] == s[a]; }
      assert !AllSpace(s) by { assert !IsSpace(s[a]); }
      var t := u[..w];
      assert t == s[a..a + w];
      assert forall i :: 0 <= i < |t| ==> !IsSpace(t[i]) by {
        forall i | 0 <= i < |t| ensures !IsSpace(t[i]) { assert t[i] == u[i]; }
      }
      [t] + Tokens(s[a + w..])
  }

  /** WordLength is determined by its contract. */
  lemma WordLengthIs(s: string, n: nat)
    requires n <= |s| && (forall i :: 0 <= i < n ==> !IsSpace(s[i])) && (n < |s| ==> IsSpace(s[n]))
    ensures WordLength(s) == n
  {
  }

  /** A leading whitespace character adds no token. */
  lemma TokensDropSpace(s: string)
    requires |s| > 0 && IsSpace(s[0])
    ensures Tokens(s) == Tokens(s[1..])
  {
    var a := LeadingSpaces(s);
    var a1 := LeadingSpaces(s[1..]);
    assert a == 1 + a1;
    if a1 < |s| - 1 {
      assert s[a..] == s[1..][a1..];
      var w := WordLength(s[a..]);
      assert s[a + w..] == s[1..][a1 + w..];
    }
  }

  /** A text that starts with a word yields that word, then the tokens of
      the rest. */
  lemma TokensTakeWord(s: string)
    requires |s| > 0 && !IsSpace(s[0])
    ensures Tokens(s) == [s[..WordLength(s)]] + Tokens(s[WordLength(s)..])
  {
    assert LeadingSpaces(s) == 0;
    assert s[0..] == s;
  }

  /** `split(/\s+/)` cuts at every whitespace character: the tokens of a
      text with a whitespace character inside are the tokens before it
      followed by the tokens after it. With SingleToken this determines
      Tokens on every text. */
  lemma {:induction false} TokensSplitAtSpace(a: string, c: char, b: string)
    requires IsSpace(c)
    ensures Tokens(a + [c] + b) == Tokens(a) + Tokens(b)
    decreases |a|, 1
  {
    if a == [] {
      var s := a + [c] + b;
      TokensDropSpace(s);
      assert s[1..] == b;
    } else if IsSpace(a[0]) {
      TokensSplitAfterSpace(a, c, b);
    } else {
      TokensSplitAfterWord(a, c, b);
    }
  }

  /** The case of TokensSplitAtSpace where a starts with whitespace. */
  lemma {:induction false} TokensSplitAfterSpace(a: string, c: char, b: string)
    requires IsSpace(c) && a != [] && IsSpace(a[0])
    ensures Tokens(a + [c] + b) == Tokens(a) + Tokens(b)
    decreases |a|, 0
  {
    calc {
      Tokens(a + [c] + b);
      { TokensDropSpaceOfJoin(a, c, b); }
      Tokens(a[1..] + [c] + b);
      { TokensSplitAtSpace(a[1..], c, b); }
      Tokens(a[1..]) + Tokens(b);
      { TokensDropSpace(a); }
      Tokens(a) + Tokens(b);
    }
  }

  /** The case of TokensSplitAtSpace where a starts with a word. */
  lemma {:induction false} TokensSplitAfterWord(a: string, c: char, b: string)
    requires IsSpace(c) && a != [] && !IsSpace(a[0])
    ensures Tokens(a + [c] + b) == Tokens(a) + Tokens(b)
    decreases |a|, 0
  {
    var w := WordLength(a);
    calc {
      Tokens(a + [c] + b);
      { TokensTakeWordOfJoin(a, c, b); }
      [a[..w]] + Tokens(a[w..] + [c] + b);
      { TokensSplitAtSpace(a[w..], c, b); }
      [a[..w]] + (Tokens(a[w..]) + Tokens(b));
      { TokensRegroup([a[..w]], Tokens(a[w..]), Tokens(b)); }
      [a[..w]] + Tokens(a[w..]) + Tokens(b);
      { TokensTakeWord(a); }
      Tokens(a) + Tokens(b);
    }
  }

  lemma TokensRegroup(x: seq<string>, y: seq<string>, z: seq<string>)
    ensures x + (y + z) == x + y + z
  {
  }

  /** A whitespace character that a starts with adds no token to a + [c] + b. */
  lemma TokensDropSpaceOfJoin(a: string, c: char, b: string)
    requires a != [] && IsSpace(a[0])
    ensures Tokens(a + [c] + b) == Tokens(a[1..] + [c] + b)
  {
    var s := a + [c] + b;
    assert s[1..] == a[1..] + [c] + b;
    TokensDropSpace(s);
  }

  /** The word that a starts with is also the first token of a + [c] + b. */
  lemma TokensTakeWordOfJoin(a: string, c: char, b: string)
    requires IsSpace(c) && a != [] && !IsSpace(a[0])
    ensures Tokens(a + [c] + b) == [a[..WordLength(a)]] + Tokens(a[WordLength(a)..] + [c] + b)
  {
    var s := a + [c] + b;
    var w := WordLength(a);
    assert WordLength(s) == w by { WordLengthOfJoin(a, c, b); }
    calc {
      Tokens(s);
      { TokensTakeWord(s); }
      [s[..w]] + Tokens(s[w..]);
      { assert s[..w] == a[..w]; assert s[w..] == a[w..] + [c] + b; }
      [a[..w]] + Tokens(a[w..] + [c] + b);
    }
  }

  /** A whitespace character after a ends a word that starts in a. */
  lemma WordLengthOfJoin(a: string, c: char, b: string)
    requires IsSpace(c)
    ensures WordLength(a + [c] + b) == WordLength(a)
  {
    var s := a + [c] + b;
    var w := WordLength(a);
    forall i | 0 <= i < w ensures !IsSpace(s[i]) { assert s[i] == a[i]; }
    assert IsSpace(s[w]) by {
      if w < |a| { assert s[w] == a[w]; } else { assert s[w] == c; }
    }
    WordLengthIs(s, w);
  }

  /** A text yields no token exactly when no character of it lower-cases to a
      letter a-z or a digit: empty text, whitespace only, punctuation only. */
  lemma NoTokensIffNoWordChar(text: string)
    ensures Tokens(Cleaned(text)) == [] <==> forall i :: 0 <= i < |text| ==> !IsWordChar(LowerAscii(text[i]))
  {
    var c := Cleaned(text);
    if Tokens(c) == [] {
      forall i | 0 <= i < |text| ensures !IsWordChar(LowerAscii(text[i])) {
        assert IsSpace(c[i]);
      }
    } else {
      assert !AllSpace(c);
      var i :| 0 <= i < |c| && !IsSpace(c[i]);
      assert IsWordChar(LowerAscii(text[i]));
    }
  }

  // ---------------------------------------------------------------------
  // Scoring
  // ---------------------------------------------------------------------

  /** +1 for a positive word, -1 for a negative word (both lists are checked,
      so a word in both would contribute 0). */
  function Polarity(t: string): (p: int)
    ensures -1 <= p <= 1
    ensures p == 1 <==> t in PositiveWords && t !in NegativeWords
    ensures p == -1 <==> t in NegativeWords && t !in PositiveWords
  {
    (if t in PositiveWords then 1 else 0) - (if t in NegativeWords then 1 else 0)
  }

  lemma WordListsDisjoint(t: string)
    ensures !(t in PositiveWords && t in NegativeWords)
  {
  }

  /** The score accumulated by the token loop before the intensifier boost. */
  function RawScore(ts: seq<string>): (r: int)
    ensures -|ts| <= r <= |ts|
  {
    if ts == [] then 0 else RawScore(ts[..|ts| - 1]) + Polarity(ts[|ts| - 1])
  }

  /** `tokens.filter(t => ["very","extremely","highly"].includes(t)).length` */
  function IntensifierCount(ts: seq<string>): (n: nat)
    ensures n <= |ts|
  {
    |Filter(ts, t => t in Intensifiers)|
  }

  /** Math.sign over reals: one of 1, -1 and 0, of the same sign as x, and
      0 only for 0. */
  function Sign(x: real): (s: real)
    ensures s == 1.0 || s == -1.0 || s == 0.0
    ensures s > 0.0 <==> x > 0.0
    ensures s < 0.0 <==> x < 0.0
  {
    if x > 0.0 then 1.0 else if x < 0.0 then -1.0 else 0.0
  }

  /** `raw + n * 0.5 * Math.sign(raw || 1)`: each intensifier moves the score
      0.5 further from zero, upwards when the score is zero. */
  function Boost(raw: real, n: nat): (b: real)
    ensures raw < 0.0 ==> b == raw - 0.5 * n as real
    ensures raw >= 0.0 ==> b == raw + 0.5 * n as real
  {
    raw + n as real * 0.5 * Sign(if raw == 0.0 then 1.0 else raw)
  }

  /** Intensifiers never flip the polarity: a negative score grows more
      negative by 0.5 per intensifier, a zero or positive score more positive. */
  lemma BoostKeepsPolarity(raw: real, n: nat)
    ensures raw < 0.0 ==> Boost(raw, n) == raw - 0.5 * n as real && Boost(raw, n) < 0.0
    ensures raw >= 0.0 ==> Boost(raw, n) == raw + 0.5 * n as real && Boost(raw, n) >= 0.0
    ensures raw > 0.0 ==> Boost(raw, n) > 0.0
    ensures raw == 0.0 && n > 0 ==> Boost(raw, n) > 0.0
  {
  }

  /** normalizeScore: 0 with no tokens, else raw / tokens clamped to [-1, 1]. */
  function NormalizeScore(raw: real, totalTokens: nat): (s: real)
    ensures -1.0 <= s <= 1.0
    ensures totalTokens == 0 ==> s == 0.0
    ensures totalTokens > 0 && -(totalTokens as real) <= raw <= totalTokens as real ==> s == raw / totalTokens as real
    ensures totalTokens > 0 && raw > totalTokens as real ==> s == 1.0
    ensures totalTokens > 0 && raw < -(totalTokens as real) ==> s == -1.0
  {
    if totalTokens == 0 then 0.0
    else
      var n := totalTokens as real;
      DivisionBounds(raw, n);
      MaxReal(-1.0, MinReal(1.0, raw / n))
  }

  lemma DivisionBounds(raw: real, n: real)
    requires n > 0.0
    ensures raw > n ==> raw / n > 1.0
    ensures raw < -n ==> raw / n < -1.0
    ensures -n <= raw <= n ==> -1.0 <= raw / n <= 1.0
  {
    var q := raw / n;
    assert q * n == raw;
    assert (q - 1.0) * n == raw - n;
    assert (q + 1.0) * n == raw + n;
  }

  /** labelFromScore: above 0.15 positive, below -0.15 negative, else neutral. */
  function LabelFromScore(score: real): (l: string)
    ensures l == Positive <==> score > 0.15
    ensures l == Negative <==> score < -0.15
    ensures l == Neutral <==> -0.15 <= score <= 0.15
  {
    if score > 0.15 then Positive else if score < -0.15 then Negative else Neutral
  }

  // ---------------------------------------------------------------------
  // Categories
  // ---------------------------------------------------------------------

  /** The category of every token that is an own key of categoryMap, in token
      order, repeats included. */
  function MatchedCategories(ts: seq<string>): (cs: seq<string>)
    ensures |cs| <= |ts|
    ensures forall c :: c in cs ==> c in CategoryNames
  {
    if ts == [] then []
    else
      var prev := MatchedCategories(ts[..|ts| - 1]);
      var t := ts[|ts| - 1];
      if t in CategoryMap then CategoryMapInto(t); prev + [CategoryMap[t]] else prev
  }

  /** `Array.from(foundCategories)`: the Set filled in token order. */
  function FoundCategories(ts: seq<string>): seq<string>
  {
    Dedup(MatchedCategories(ts))
  }

  /** The categories are distinct, each is a value of categoryMap, each is the
      category of some token, and they are listed in the order in which their
      first matching token appears. */
  lemma FoundCategoriesFacts(ts: seq<string>)
    ensures NoDup(FoundCategories(ts))
    ensures forall c :: c in FoundCategories(ts) ==> c in CategoryNames
    ensures forall c :: c in FoundCategories(ts) <==> exists t :: t in ts && t in CategoryMap && CategoryMap[t] == c
    ensures forall i, j :: 0 <= i < j < |FoundCategories(ts)| ==>
      FirstIndex(MatchedCategories(ts), FoundCategories(ts)[i]) < FirstIndex(MatchedCategories(ts), FoundCategories(ts)[j])
  {
    MatchedCategoriesSource(ts);
    forall i, j | 0 <= i < j < |FoundCategories(ts)|
      ensures FirstIndex(MatchedCategories(ts), FoundCategories(ts)[i]) < FirstIndex(MatchedCategories(ts), FoundCategories(ts)[j])
    {
      DedupFirstOccurrenceOrder(MatchedCategories(ts), i, j);
    }
  }

  lemma {:induction false} MatchedCategoriesSource(ts: seq<string>)
    ensures forall c :: c in MatchedCategories(ts) <==> exists t :: t in ts && t in CategoryMap && CategoryMap[t] == c
  {
    if ts != [] {
      var p := ts[..|ts| - 1];
      MatchedCategoriesSource(p);
      assert ts == p + [ts[|ts| - 1]];
    }
  }

  // ---------------------------------------------------------------------
  // Suggestions
  // ---------------------------------------------------------------------

  /** `Maintain strength in ${cat}: ${lib[0]}`, where an empty library would
      print "undefined". */
  function Reinforcement(cat: string, lib: seq<string>): string
  {
    "Maintain strength in " + cat + ": " + (if |lib| > 0 then lib[0] else "undefined")
  }

  /** What the suggestion loop pushes for the categories, before
      de-duplication, looking each category up in `lib` (analyzeSentiment
      passes SuggestionLibrary). */
  function PushedSuggestions(cats: seq<string>, lbl: string, lib: map<string, seq<string>>): seq<string>
  {
    if cats == [] then []
    else
      var prev := PushedSuggestions(cats[..|cats| - 1], lbl, lib);
      var cat := cats[|cats| - 1];
      if cat !in lib then prev
      else if lbl == Positive then prev + [Reinforcement(cat, lib[cat])]
      else prev + lib[cat]
  }

  /** The derived fields of a review (everything but id and createdAt). */
  datatype Analysis = Analysis(
    text: string,
    score: real,
    sentimentLabel: string,
    categories: seq<string>,
    suggestions: seq<string>)

  /** analyzeSentiment as one expression: the specification of the method. */
  function Analyze(text: string): Analysis
  {
    var ts := Tokens(Cleaned(text));
    var score := NormalizeScore(Boost(RawScore(ts) as real, IntensifierCount(ts)), |ts|);
    var lbl := LabelFromScore(score);
    var cats := FoundCategories(ts);
    Analysis(text, score, lbl, cats, Dedup(PushedSuggestions(cats, lbl, SuggestionLibrary)))
  }

  /** What one more token adds to the raw score and to the category Set. */
  lemma TokenStep(ts: seq<string>, i: nat)
    requires i < |ts|
    ensures RawScore(ts[..i + 1]) == RawScore(ts[..i]) + Polarity(ts[i])
    ensures FoundCategories(ts[..i + 1]) ==
      if ts[i] !in CategoryMap || CategoryMap[ts[i]] in FoundCategories(ts[..i]) then FoundCategories(ts[..i])
      else FoundCategories(ts[..i]) + [CategoryMap[ts[i]]]
  {
    assert ts[..i + 1][..i] == ts[..i];
    if ts[i] in CategoryMap {
      DedupSnoc(MatchedCategories(ts[..i]), CategoryMap[ts[i]]);
    }
  }

  /** What one more category adds to the pushed suggestions. */
  lemma SuggestionStep(cats: seq<string>, k: nat, lbl: string, lib: map<string, seq<string>>)
    requires k < |cats|
    ensures PushedSuggestions(cats[..k + 1], lbl, lib) ==
      if cats[k] !in lib then PushedSuggestions(cats[..k], lbl, lib)
      else if lbl == Positive then PushedSuggestions(cats[..k], lbl, lib) + [Reinforcement(cats[k], lib[cats[k]])]
      else PushedSuggestions(cats[..k], lbl, lib) + lib[cats[k]]
  {
    assert cats[..k + 1][..k] == cats[..k];
  }

  /** The token loop of analyzeSentiment: +1 for a positive word, -1 for a
      negative word, and the token's category added to the Set. */
  method ScoreTokens(tokens: seq<string>) returns (rawScore: real, found: seq<string>)
    ensures rawScore == RawScore(tokens) as real
    ensures found == FoundCategories(tokens)
  {
    rawScore := 0.0;
    found := [];
    var i := 0;
    while i < |tokens|
      invariant 0 <= i <= |tokens|
      invariant rawScore == RawScore(tokens[..i]) as real
      invariant found == FoundCategories(tokens[..i])
    {
      var t := tokens[i];
      TokenStep(tokens, i);
      if t in PositiveWords { rawScore := rawScore + 1.0; }
      if t in NegativeWords { rawScore := rawScore - 1.0; }
      if t in CategoryMap {
        if CategoryMap[t] !in found {
          found := found + [CategoryMap[t]];
        }
      }
      i := i + 1;
    }
    assert tokens[..|tokens|] == tokens;
  }

  /** The category loop of analyzeSentiment: a reinforcement line per
      category when the label is positive, otherwise the category's whole
      library list. */
  method PushSuggestions(found: seq<string>, lbl: string) returns (suggestions: seq<string>)
    ensures suggestions == PushedSuggestions(found, lbl, SuggestionLibrary)
  {
    suggestions := [];
    var k := 0;
    while k < |found|
      invariant 0 <= k <= |found|
      invariant suggestions == PushedSuggestions(found[..k], lbl, SuggestionLibrary)
    {
      var cat := found[k];
      SuggestionStep(found, k, lbl, SuggestionLibrary);
      if cat in SuggestionLibrary {
        var lib := SuggestionLibrary[cat];
        if lbl == Positive {
          suggestions := suggestions + [Reinforcement(cat, lib)];
        } else {
          suggestions := suggestions + lib;
        }
      }
      k := k + 1;
    }
    assert found[..|found|] == found;
  }

  /** analyzeSentiment: clean and split the text, run the token loop, boost
      by the intensifiers, normalise, label, run the category loop and
      de-duplicate. Restricted to ASCII text (see README). */
  method AnalyzeSentiment(text: string) returns (r: Analysis)
    requires IsAscii(text)
    ensures r == Analyze(text)
    ensures r.text == text
    ensures -1.0 <= r.score <= 1.0
    ensures r.sentimentLabel == LabelFromScore(r.score)
    ensures NoDup(r.categories) && NoDup(r.suggestions)
    ensures forall c :: c in r.categories ==> c in CategoryNames
  {
    var tokens := Tokens(Cleaned(text));
    var rawScore, found := ScoreTokens(tokens);
    var intensifiers := IntensifierCount(tokens);
    rawScore := Boost(rawScore, intensifiers);
    var score := NormalizeScore(rawScore, |tokens|);
    var lbl := LabelFromScore(score);
    var suggestions := PushSuggestions(found, lbl);
    r := Analysis(text, score, lbl, found, Dedup(suggestions));
    FoundCategoriesFacts(tokens);
  }

  // ---------------------------------------------------------------------
  // Properties
  // ---------------------------------------------------------------------

  /** The score lies in [-1, 1] and the label is the threshold of the score. */
  lemma ScoreBoundedAndLabelled(text: string)
    ensures -1.0 <= Analyze(text).score <= 1.0
    ensures Analyze(text).sentimentLabel == Positive <==> Analyze(text).score > 0.15
    ensures Analyze(text).sentimentLabel == Negative <==> Analyze(text).score < -0.15
    ensures Analyze(text).sentimentLabel == Neutral <==> -0.15 <= Analyze(text).score <= 0.15
    ensures Analyze(text).text == text
  {
  }

  /** A text with no tokens scores 0, is neutral, and has no categories and no
      suggestions. */
  lemma {:induction false} NoTokensIsNeutral(text: string)
    requires forall i :: 0 <= i < |text| ==> !IsWordChar(LowerAscii(text[i]))
    ensures Analyze(text) == Analysis(text, 0.0, Neutral, [], [])
  {
    NoTokensIffNoWordChar(text);
    assert Tokens(Cleaned(text)) == [];
  }

  /** The empty text and whitespace-only text are the commonest such texts. */
  lemma BlankTextIsNeutral(text: string)
    requires AllSpace(text)
    ensures Analyze(text) == Analysis(text, 0.0, Neutral, [], [])
  {
    forall i | 0 <= i < |text| ensures !IsWordChar(LowerAscii(text[i])) {
      assert IsSpace(text[i]);
    }
    NoTokensIsNeutral(text);
  }

  /** Reinforcement lines of different categories differ, as long as no
      category name contains a colon. */
  lemma ReinforcementInjective(c1: string, l1: seq<string>, c2: string, l2: seq<string>)
    requires ':' !in c1 && ':' !in c2 && c1 != c2
    ensures Reinforcement(c1, l1) != Reinforcement(c2, l2)
  {
    var p := "Maintain strength in ";
    var x1 := if |l1| > 0 then l1[0] else "undefined";
    var x2 := if |l2| > 0 then l2[0] else "undefined";
    var s1 := c1 + ": " + x1;
    var s2 := c2 + ": " + x2;
    assert Reinforcement(c1, l1) == p + s1;
    assert Reinforcement(c2, l2) == p + s2;
    if |c1| < |c2| {
      assert s1[|c1|] == ':' && s2[|c1|] == c2[|c1|];
      assert (p + s1)[|p| + |c1|] != (p + s2)[|p| + |c1|];
    } else if |c2| < |c1| {
      assert s2[|c2|] == ':' && s1[|c2|] == c1[|c2|];
      assert (p + s1)[|p| + |c2|] != (p + s2)[|p| + |c2|];
    } else {
      var k :| 0 <= k < |c1| && c1[k] != c2[k];
      assert (p + s1)[|p| + k] != (p + s2)[|p| + k];
    }
  }

  /** What the suggestion lemmas need to know about a category name. */
  lemma CategoryNameFacts(c: string)
    requires c in CategoryNames
    ensures c in SuggestionLibrary && |SuggestionLibrary[c]| == 3 && ':' !in c
  {
  }

  /** With a positive label the loop pushes one reinforcement line per
      category, in category order. */
  lemma {:induction false} PositiveSuggestionsInOrder(cats: seq<string>, lib: map<string, seq<string>>)
    requires forall c :: c in cats ==> c in lib
    ensures |PushedSuggestions(cats, Positive, lib)| == |cats|
    ensures forall i :: 0 <= i < |cats| ==>
      PushedSuggestions(cats, Positive, lib)[i] == Reinforcement(cats[i], lib[cats[i]])
  {
    if cats != [] {
      var p := cats[..|cats| - 1];
      assert forall i :: 0 <= i < |p| ==> p[i] == cats[i];
      PositiveSuggestionsInOrder(p, lib);
      assert cats[|cats| - 1] in cats;
    }
  }

  /** With a positive label there is exactly one reinforcement line per
      category, in category order, and distinct categories give distinct
      lines. */
  lemma PositiveSuggestionsAreReinforcements(cats: seq<string>, lib: map<string, seq<string>>)
    requires NoDup(cats)
    requires forall c :: c in cats ==> c in lib && ':' !in c
    ensures |PushedSuggestions(cats, Positive, lib)| == |cats|
    ensures forall i :: 0 <= i < |cats| ==>
      PushedSuggestions(cats, Positive, lib)[i] == Reinforcement(cats[i], lib[cats[i]])
    ensures NoDup(PushedSuggestions(cats, Positive, lib))
  {
    PositiveSuggestionsInOrder(cats, lib);
    var r := PushedSuggestions(cats, Positive, lib);
    forall i, j | 0 <= i < j < |r| ensures r[i] != r[j] {
      ReinforcementInjective(cats[i], lib[cats[i]], cats[j], lib[cats[j]]);
    }
  }

  /** With a non-positive label the loop pushes each category's whole library
      list, category after category. */
  lemma {:induction false} OtherSuggestionsAreLibraries(cats: seq<string>, lbl: string, lib: map<string, seq<string>>)
    requires lbl != Positive
    requires forall c :: c in cats ==> c in lib
    ensures PushedSuggestions(cats, lbl, lib) == Flatten(LibraryLists(cats, lib))
  {
    if cats != [] {
      var p := cats[..|cats| - 1];
      OtherSuggestionsAreLibraries(p, lbl, lib);
      assert LibraryLists(cats, lib) == LibraryLists(p, lib) + [lib[cats[|cats| - 1]]];
      FlattenSnoc(LibraryLists(p, lib), lib[cats[|cats| - 1]]);
    }
  }

  /** The library list of each category, in category order. */
  function LibraryLists(cats: seq<string>, lib: map<string, seq<string>>): (ls: seq<seq<string>>)
    requires forall c :: c in cats ==> c in lib
    ensures |ls| == |cats| && forall i :: 0 <= i < |cats| ==> ls[i] == lib[cats[i]]
  {
    seq(|cats|, i requires 0 <= i < |cats| => lib[cats[i]])
  }

  /** The suggestions of a positive review are exactly one reinforcement line
      per category; otherwise they are the de-duplicated concatenation of the
      categories' library lists. */
  lemma SuggestionsByLabel(text: string)
    ensures var a := Analyze(text);
      a.sentimentLabel == Positive ==>
        |a.suggestions| == |a.categories| &&
        forall i :: 0 <= i < |a.categories| ==>
          a.categories[i] in SuggestionLibrary &&
          a.suggestions[i] == Reinforcement(a.categories[i], SuggestionLibrary[a.categories[i]])
    ensures var a := Analyze(text);
      a.sentimentLabel != Positive ==>
        (forall c :: c in a.categories ==> c in SuggestionLibrary) &&
        a.suggestions == Dedup(Flatten(LibraryLists(a.categories, SuggestionLibrary)))
  {
    var a := Analyze(text);
    var ts := Tokens(Cleaned(text));
    FoundCategoriesFacts(ts);
    forall c | c in a.categories ensures c in SuggestionLibrary && ':' !in c {
      CategoryNameFacts(c);
    }
    if a.sentimentLabel == Positive {
      PositiveSuggestionsAreReinforcements(a.categories, SuggestionLibrary);
      DedupOfNoDup(PushedSuggestions(a.categories, Positive, SuggestionLibrary));
    } else {
      OtherSuggestionsAreLibraries(a.categories, a.sentimentLabel, SuggestionLibrary);
    }
  }

  // ---------------------------------------------------------------------
  // categoryMap as a plain object (see README, Findings)
  // ---------------------------------------------------------------------

  /** What `categoryMap[t]` evaluates to in JavaScript: an own string value,
      the inherited Object.prototype.constructor (the Object function, which
      is truthy), or undefined. Tokens consist of [a-z0-9] only, so
      "constructor" is the only inherited member a token can name. */
  datatype PropertyValue = OwnString(s: string) | ObjectConstructor | Undefined

  function CategoryLookupAsWritten(t: string): PropertyValue
  {
    if t in CategoryMap then OwnString(CategoryMap[t])
    else if t == "constructor" then ObjectConstructor
    else Undefined
  }

  predicate Truthy(v: PropertyValue)
  {
    match v
    case OwnString(s) => s != ""
    case ObjectConstructor => true
    case Undefined => false
  }

  /** The category Set as the code fills it: `if (categoryMap[t])
      foundCategories.add(categoryMap[t])`. */
  function FoundCategoriesAsWritten(ts: seq<string>): seq<PropertyValue>
  {
    if ts == [] then []
    else
      var prev := FoundCategoriesAsWritten(ts[..|ts| - 1]);
      var v := CategoryLookupAsWritten(ts[|ts| - 1]);
      if Truthy(v) && v !in prev then prev + [v] else prev
  }

  /** A word made of [a-z0-9] only is left as it is by the cleaning step. */
  lemma {:induction false} CleanedWord(w: string)
    requires forall i :: 0 <= i < |w| ==> IsWordChar(w[i])
    ensures Cleaned(w) == w
  {
    if w != [] {
      CleanedWord(w[1..]);
    }
  }

  /** A non-empty text without whitespace is a single token. */
  lemma SingleToken(w: string)
    requires w != [] && forall i :: 0 <= i < |w| ==> !IsSpace(w[i])
    ensures Tokens(w) == [w]
  {
    assert LeadingSpaces(w) == 0;
    assert WordLength(w) == |w|;
    assert w[0..|w|] == w;
    assert Tokens(w[|w|..]) == [];
  }

  /** "constructor" is not an own key of categoryMap: no own key has its
      eleven characters. */
  lemma ConstructorNotOwnKey()
    ensures forall k :: k in CategoryMap ==> |k| != 11
    ensures "constructor" !in CategoryMap
  {
  }

  /** The review text "constructor" is a single token, itself. */
  lemma {:induction false} ConstructorIsOneToken(text: string)
    requires text == "constructor"
    ensures Tokens(Cleaned(text)) == [text]
  {
    assert forall i :: 0 <= i < |text| ==> IsWordChar(text[i]);
    CleanedWord(text);
    SingleToken(text);
  }

  /** Once the word "constructor" occurs among the tokens, the code records
      the Object function as a category, which is not a value of categoryMap
      and so never appears in the corrected list. */
  lemma {:induction false} ConstructorTokenBecomesCategory(ts: seq<string>)
    requires "constructor" in ts
    ensures ObjectConstructor in FoundCategoriesAsWritten(ts)
    ensures forall c :: c in FoundCategories(ts) ==> c in CategoryNames
  {
    var p := ts[..|ts| - 1];
    var t := ts[|ts| - 1];
    FoundCategoriesFacts(ts);
    if t == "constructor" {
      assert "constructor" !in CategoryMap by {
        ConstructorNotOwnKey();
      }
      assert CategoryLookupAsWritten(t) == ObjectConstructor;
    } else {
      assert "constructor" in p by {
        assert ts == p + [t];
      }
      ConstructorTokenBecomesCategory(p);
    }
  }

  /** The concrete review "constructor": the code reports one category, the
      Object function, where the corrected lookup reports none. */
  lemma ConstructorReviewExample(text: string)
    requires text == "constructor"
    ensures FoundCategoriesAsWritten(Tokens(Cleaned(text))) == [ObjectConstructor]
    ensures FoundCategories(Tokens(Cleaned(text))) == []
  {
    ConstructorIsOneToken(text);
    var ts := [text];
    assert ts[..0] == [];
    assert text !in CategoryMap by {
      ConstructorNotOwnKey();
    }
    assert FoundCategoriesAsWritten(ts) == [ObjectConstructor];
    assert MatchedCategories(ts) == [];
  }

  /** OwnString over a list of category names. */
  function AsOwn(cs: seq<string>): (r: seq<PropertyValue>)
    ensures |r| == |cs| && forall i :: 0 <= i < |cs| ==> r[i] == OwnString(cs[i])
    ensures forall c :: OwnString(c) in r <==> c in cs
  {
    if cs == [] then [] else AsOwn(cs[..|cs| - 1]) + [OwnString(cs[|cs| - 1])]
  }

  /** For every token that is an own key the two lookups agree, so the
      corrected FoundCategories differs from the code only on "constructor". */
  lemma {:induction false} AsWrittenAgreesOffConstructor(ts: seq<string>)
    requires "constructor" !in ts
    ensures FoundCategoriesAsWritten(ts) == AsOwn(FoundCategories(ts))
  {
    if ts != [] {
      var p := ts[..|ts| - 1];
      var t := ts[|ts| - 1];
      assert "constructor" !in p by { assert forall x :: x in p ==> x in ts; }
      AsWrittenAgreesOffConstructor(p);
      var d := FoundCategories(p);
      if t in CategoryMap {
        var c := CategoryMap[t];
        assert CategoryLookupAsWritten(t) == OwnString(c) && c != "" by { CategoryMapInto(t); }
        assert FoundCategories(ts) == if c in d then d else d + [c] by {
          DedupSnoc(MatchedCategories(p), c);
          assert MatchedCategories(ts) == MatchedCategories(p) + [c];
        }
        if c !in d {
          assert AsOwn(d + [c]) == AsOwn(d) + [OwnString(c)] by {
            assert (d + [c])[..|d|] == d;
          }
        }
      } else {
        assert CategoryLookupAsWritten(t) == Undefined;
        assert MatchedCategories(ts) == MatchedCategories(p);
      }
    }
  }

}
