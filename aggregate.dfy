/** aggregateReviews of src/lib/sentiment.ts: the number of reviews per
    label, the mean score, and the five most frequent categories. The
    category count is a nested loop over the reviews and their categories
    that bumps entries of a plain object; the top five are read back with
    Object.entries, sorted by descending count (a stable sort) and cut. */
module Aggregate {
  import opened Common
  import opened Domain
  import opened Sorting

  datatype Summary = Summary(
    avgScore: real,
    positives: nat,
    negatives: nat,
    neutrals: nat,
    topCategories: seq<string>)

  const EmptySummary := Summary(0.0, 0, 0, 0, [])

  // ---------------------------------------------------------------------
  // Label counts and mean
  // ---------------------------------------------------------------------

  /** `reviews.filter(r => r.label === lbl).length` */
  function CountLabel(rs: seq<SentimentReview>, lbl: string): (n: nat)
    ensures n <= |rs|
  {
    if rs == [] then 0
    else CountLabel(rs[..|rs| - 1], lbl) + (if rs[|rs| - 1].sentimentLabel == lbl then 1 else 0)
  }

  predicate KnownLabel(l: string)
  {
    l == Positive || l == Negative || l == Neutral
  }

  /** The three counts never exceed the number of reviews, and they add up to
      it exactly when every review carries one of the three labels. */
  lemma {:induction false} LabelCountsSum(rs: seq<SentimentReview>)
    ensures CountLabel(rs, Positive) + CountLabel(rs, Negative) + CountLabel(rs, Neutral) <= |rs|
    ensures CountLabel(rs, Positive) + CountLabel(rs, Negative) + CountLabel(rs, Neutral) == |rs|
            <==> forall i :: 0 <= i < |rs| ==> KnownLabel(rs[i].sentimentLabel)
  {
    if rs != [] {
      var p := rs[..|rs| - 1];
      var l := rs[|rs| - 1].sentimentLabel;
      LabelCountsSum(p);
      assert Positive != Negative && Positive != Neutral && Negative != Neutral by {
        assert Positive[0] == 'p' && Negative[0] == 'n' && Neutral[0] == 'n';
        assert Negative[1] == 'e' && Neutral[1] == 'e' && Negative[2] == 'g' && Neutral[2] == 'u';
      }
      assert forall i :: 0 <= i < |p| ==> p[i] == rs[i];
    }
  }

  /** `reviews.reduce((a, r) => a + r.score, 0)` */
  function SumScores(rs: seq<SentimentReview>): real
  {
    if rs == [] then 0.0 else SumScores(rs[..|rs| - 1]) + rs[|rs| - 1].score
  }

  lemma {:induction false} SumScoresBounds(rs: seq<SentimentReview>, lo: real, hi: real)
    requires forall i :: 0 <= i < |rs| ==> lo <= rs[i].score <= hi
    ensures |rs| as real * lo <= SumScores(rs) <= |rs| as real * hi
  {
    if rs != [] {
      var p := rs[..|rs| - 1];
      assert forall i :: 0 <= i < |p| ==> p[i] == rs[i];
      SumScoresBounds(p, lo, hi);
      assert |rs| as real * lo == |p| as real * lo + lo;
      assert |rs| as real * hi == |p| as real * hi + hi;
    }
  }

  lemma DivTimes(q: real, a: real, n: real)
    requires n > 0.0 && q == a / n
    ensures q * n == a
  {
  }

  /** The mean of scores that all lie in [lo, hi] lies in [lo, hi]. */
  lemma MeanBounds(rs: seq<SentimentReview>, lo: real, hi: real)
    requires |rs| > 0
    requires forall i :: 0 <= i < |rs| ==> lo <= rs[i].score <= hi
    ensures lo <= SumScores(rs) / |rs| as real <= hi
  {
    SumScoresBounds(rs, lo, hi);
    var n := |rs| as real;
    var q := SumScores(rs) / n;
    assert q * n == SumScores(rs);
    assert (q - lo) * n == SumScores(rs) - n * lo;
    assert (hi - q) * n == n * hi - SumScores(rs);
  }

  // ---------------------------------------------------------------------
  // Category counting
  // ---------------------------------------------------------------------

  /** Every review's categories, review after review. */
  function AllCategories(rs: seq<SentimentReview>): seq<string>
  {
    if rs == [] then [] else AllCategories(rs[..|rs| - 1]) + rs[|rs| - 1].categories
  }

  lemma {:induction false} AllCategoriesMembers(rs: seq<SentimentReview>)
    ensures forall c :: c in AllCategories(rs) <==> exists i :: 0 <= i < |rs| && c in rs[i].categories
  {
    if rs != [] {
      var p := rs[..|rs| - 1];
      AllCategoriesMembers(p);
      assert forall i :: 0 <= i < |p| ==> p[i] == rs[i];
    }
  }

  /** How often each category occurs over all reviews. */
  function CategoryCounts(rs: seq<SentimentReview>): (m: map<string, nat>)
    ensures forall c :: c in m <==> c in AllCategories(rs)
  {
    var all := AllCategories(rs);
    map c | c in all :: Count(all, c)
  }

  /** counts holds, for exactly the names occurring in flat, how often
      each occurs. */
  ghost predicate Counted(flat: seq<string>, counts: map<string, nat>)
  {
    && (forall c :: c in counts <==> c in flat)
    && (forall c :: c in counts ==> counts[c] == Count(flat, c))
  }

  lemma CountedIsCategoryCounts(rs: seq<SentimentReview>, counts: map<string, nat>)
    requires Counted(AllCategories(rs), counts)
    ensures counts == CategoryCounts(rs)
  {
  }

  /** The nested forEach that fills categoryCount. `keys` is the order in
      which the keys were first assigned. */
  method CountCategories(rs: seq<SentimentReview>) returns (keys: seq<string>, counts: map<string, nat>)
    ensures keys == Dedup(AllCategories(rs))
    ensures counts == CategoryCounts(rs)
  {
    keys := [];
    counts := map[];
    var i := 0;
    while i < |rs|
      invariant 0 <= i <= |rs|
      invariant keys == Dedup(AllCategories(rs[..i]))
      invariant Counted(AllCategories(rs[..i]), counts)
    {
      assert AllCategories(rs[..i + 1]) == AllCategories(rs[..i]) + rs[i].categories by {
        assert rs[..i + 1][..i] == rs[..i];
      }
      keys, counts := CountReviewCategories(rs[i].categories, keys, counts, AllCategories(rs[..i]));
      i := i + 1;
    }
    assert rs[..|rs|] == rs;
    CountedIsCategoryCounts(rs, counts);
  }

  /** The inner forEach over one review's categories:
      `(categoryCount[c] || 0) + 1` reads 0 for a new key, and a stored
      count is at least 1 and so truthy. */
  method CountReviewCategories(cs: seq<string>, keys0: seq<string>, counts0: map<string, nat>, ghost flat: seq<string>)
    returns (keys: seq<string>, counts: map<string, nat>)
    requires keys0 == Dedup(flat) && Counted(flat, counts0)
    ensures keys == Dedup(flat + cs) && Counted(flat + cs, counts)
  {
    keys, counts := keys0, counts0;
    ghost var seen := flat;
    var j := 0;
    assert cs[0..] == cs;
    while j < |cs|
      invariant 0 <= j <= |cs|
      invariant seen + cs[j..] == flat + cs
      invariant keys == Dedup(seen) && Counted(seen, counts)
    {
      var c := cs[j];
      assert cs[j..] == [c] + cs[j + 1..];
      assert (seen + [c]) + cs[j + 1..] == seen + cs[j..];
      DedupSnoc(seen, c);
      CountStep(seen, c, counts);
      var current := if c in counts then counts[c] else 0;
      counts := counts[c := current + 1];
      if c !in keys {
        keys := keys + [c];
      }
      seen := seen + [c];
      j := j + 1;
    }
    assert cs[|cs|..] == [];
    assert seen == seen + cs[|cs|..];
  }

  /** One bump of categoryCount keeps it equal to the occurrence counts. */
  lemma CountStep(flat: seq<string>, c: string, counts: map<string, nat>)
    requires Counted(flat, counts)
    ensures Counted(flat + [c], counts[c := (if c in counts then counts[c] else 0) + 1])
  {
    forall d ensures Count(flat + [c], d) == Count(flat, d) + (if d == c then 1 else 0) {
      CountAppend(flat, [c], d);
    }
  }

  // ---------------------------------------------------------------------
  // Object.entries order
  // ---------------------------------------------------------------------

  predicate IsDigit(c: char)
  {
    '0' <= c <= '9'
  }

  /** The decimal value of a string of digits. */
  function DecimalValue(s: string): int
  {
    if s == [] then 0 else DecimalValue(s[..|s| - 1]) * 10 + (s[|s| - 1] as int - '0' as int)
  }

  /** A canonical array index: "0", or digits without a leading zero, of value
      below 2^32 - 1. Object.entries lists such keys before all others. */
  predicate IsArrayIndex(s: string)
  {
    s != [] && (forall i :: 0 <= i < |s| ==> IsDigit(s[i])) && (s[0] == '0' ==> |s| == 1)
    && DecimalValue(s) < 0xFFFF_FFFF
  }

  function IndexKeys(keys: seq<string>): (r: seq<string>)
    ensures forall k :: k in r <==> k in keys && IsArrayIndex(k)
  {
    if keys == [] then []
    else (if IsArrayIndex(keys[0]) then [keys[0]] else []) + IndexKeys(keys[1..])
  }

  function OtherKeys(keys: seq<string>): (r: seq<string>)
    ensures forall k :: k in r <==> k in keys && !IsArrayIndex(k)
  {
    if keys == [] then []
    else (if IsArrayIndex(keys[0]) then [] else [keys[0]]) + OtherKeys(keys[1..])
  }

  /** The order of Object.entries over keys assigned in the order `keys`:
      array indices ascending by value, then the other keys in assignment
      order. */
  function EntryOrder(keys: seq<string>): seq<string>
  {
    SortBy(IndexKeys(keys), DecimalValue) + OtherKeys(keys)
  }

  lemma {:induction false} SplitKeysMultiset(keys: seq<string>)
    ensures multiset(IndexKeys(keys)) + multiset(OtherKeys(keys)) == multiset(keys)
  {
    if keys != [] {
      SplitKeysMultiset(keys[1..]);
      assert keys == [keys[0]] + keys[1..];
    }
  }

  lemma {:induction false} OtherKeysAll(keys: seq<string>)
    requires forall i :: 0 <= i < |keys| ==> !IsArrayIndex(keys[i])
    ensures OtherKeys(keys) == keys && IndexKeys(keys) == []
  {
    if keys != [] {
      OtherKeysAll(keys[1..]);
      assert keys == [keys[0]] + keys[1..];
    }
  }

  /** Object.entries lists every key once. */
  lemma EntryOrderPermutes(keys: seq<string>)
    ensures multiset(EntryOrder(keys)) == multiset(keys)
  {
    SplitKeysMultiset(keys);
    SortByFacts(IndexKeys(keys), DecimalValue);
  }

  lemma EntryOrderNoDup(keys: seq<string>)
    requires NoDup(keys)
    ensures NoDup(EntryOrder(keys))
  {
    EntryOrderPermutes(keys);
    NoDupMultiset(keys, EntryOrder(keys));
  }

  /** When no key is an array index, Object.entries lists the keys in
      assignment order. */
  lemma EntryOrderWithoutIndices(keys: seq<string>)
    requires forall i :: 0 <= i < |keys| ==> !IsArrayIndex(keys[i])
    ensures EntryOrder(keys) == keys
  {
    OtherKeysAll(keys);
    assert SortBy(IndexKeys(keys), DecimalValue) == [];
    assert [] + keys == keys;
  }

  /** A key that is an array index is listed before every key that is not. */
  lemma EntryOrderIndicesFirst(keys: seq<string>, i: nat, j: nat)
    requires i < j < |EntryOrder(keys)|
    requires IsArrayIndex(EntryOrder(keys)[j])
    ensures IsArrayIndex(EntryOrder(keys)[i])
  {
    var a := SortBy(IndexKeys(keys), DecimalValue);
    var b := OtherKeys(keys);
    var o := EntryOrder(keys);
    assert o == a + b;
    SortByFacts(IndexKeys(keys), DecimalValue);
    assert o[i] == a[i] && a[i] in multiset(IndexKeys(keys));
  }

  /** A sequence without duplicates is one in which nothing occurs twice. */
  lemma {:induction false} NoDupIffSingleOccurrences<T>(s: seq<T>)
    ensures NoDup(s) <==> forall x :: multiset(s)[x] <= 1
  {
    if s != [] {
      var p := s[..|s| - 1];
      var x := s[|s| - 1];
      NoDupIffSingleOccurrences(p);
      assert s == p + [x];
      assert multiset(s) == multiset(p) + multiset{x};
      if NoDup(s) {
        assert NoDup(p);
        assert x !in p;
        assert multiset(p)[x] == 0;
      } else if NoDup(p) {
        var i, j :| 0 <= i < j < |s| && s[i] == s[j];
        assert forall k :: 0 <= k < |p| ==> p[k] == s[k];
        assert p[i] == x;
        assert multiset(s)[x] >= 2;
      } else {
        var y :| multiset(p)[y] > 1;
        assert multiset(s)[y] >= multiset(p)[y];
      }
    }
  }

  lemma NoDupMultiset<T>(a: seq<T>, b: seq<T>)
    requires NoDup(a) && multiset(a) == multiset(b)
    ensures NoDup(b)
  {
    NoDupIffSingleOccurrences(a);
    NoDupIffSingleOccurrences(b);
  }

  // ---------------------------------------------------------------------
  // Ranking
  // ---------------------------------------------------------------------

  datatype CategoryEntry = CategoryEntry(category: string, count: int)

  /** `Object.entries(categoryCount)` for keys listed in `order`. */
  function Entries(order: seq<string>, counts: map<string, nat>): (es: seq<CategoryEntry>)
    requires forall k :: k in order ==> k in counts
    ensures |es| == |order|
    ensures forall i :: 0 <= i < |order| ==> es[i] == CategoryEntry(order[i], counts[order[i]])
  {
    seq(|order|, i requires 0 <= i < |order| => CategoryEntry(order[i], counts[order[i]]))
  }

  /** The comparator `(a, b) => b[1] - a[1]`: ascending in minus the count. */
  function DescendingCount(e: CategoryEntry): int
  {
    -e.count
  }

  function Ranked(order: seq<string>, counts: map<string, nat>): seq<CategoryEntry>
    requires forall k :: k in order ==> k in counts
  {
    SortBy(Entries(order, counts), DescendingCount)
  }

  /** `.slice(0, 5).map(([c]) => c)` */
  function TopCategories(order: seq<string>, counts: map<string, nat>): (top: seq<string>)
    requires forall k :: k in order ==> k in counts
    ensures |top| == MinInt(5, |order|)
  {
    var r := Ranked(order, counts);
    var m := MinInt(5, |r|);
    seq(m, i requires 0 <= i < m => r[i].category)
  }

  lemma EntriesNoDup(order: seq<string>, counts: map<string, nat>)
    requires forall k :: k in order ==> k in counts
    requires NoDup(order)
    ensures NoDup(Entries(order, counts))
  {
  }

  /** Every ranked entry is the entry of a key of `order`, and every key's
      entry is ranked. */
  lemma RankedMembers(order: seq<string>, counts: map<string, nat>)
    requires forall k :: k in order ==> k in counts
    ensures forall e: CategoryEntry :: e in Ranked(order, counts) <==> e.category in order && e == CategoryEntry(e.category, counts[e.category])
  {
    var es := Entries(order, counts);
    SortByFacts(es, DescendingCount);
    assert forall e: CategoryEntry :: e in Ranked(order, counts) <==> e in multiset(es);
    forall e: CategoryEntry | e.category in order && e == CategoryEntry(e.category, counts[e.category])
      ensures e in es
    {
      var i :| 0 <= i < |order| && order[i] == e.category;
      assert es[i] == e;
    }
  }

  /** The top list is the categories of the first ranked entries, and each
      ranked entry carries its category's count. */
  lemma TopIsRankedPrefix(order: seq<string>, counts: map<string, nat>)
    requires forall k :: k in order ==> k in counts
    ensures var top := TopCategories(order, counts); var r := Ranked(order, counts);
      |top| <= |r| && forall i :: 0 <= i < |top| ==> top[i] == r[i].category && top[i] in order && r[i].count == counts[top[i]]
  {
    var r := Ranked(order, counts);
    var top := TopCategories(order, counts);
    SortByFacts(Entries(order, counts), DescendingCount);
    RankedMembers(order, counts);
    forall i | 0 <= i < |top| ensures top[i] == r[i].category && top[i] in order && r[i].count == counts[top[i]] {
      assert r[i] in r;
    }
  }

  /** The top categories: at most five, distinct, each a key, in order of
      non-increasing count, and no key left out has a higher count than one
      taken. */
  lemma TopCategoriesFacts(order: seq<string>, counts: map<string, nat>)
    requires forall k :: k in order ==> k in counts
    requires NoDup(order)
    ensures var top := TopCategories(order, counts);
      |top| <= 5 && NoDup(top) && (forall c :: c in top ==> c in order)
    ensures var top := TopCategories(order, counts);
      forall i, j :: 0 <= i < j < |top| ==> counts[top[i]] >= counts[top[j]]
    ensures var top := TopCategories(order, counts);
      forall c, i :: c in order && c !in top && 0 <= i < |top| ==> counts[c] <= counts[top[i]]
  {
    TopDistinctMembers(order, counts);
    TopOrdered(order, counts);
    TopNotOutranked(order, counts);
  }

  lemma TopDistinctMembers(order: seq<string>, counts: map<string, nat>)
    requires forall k :: k in order ==> k in counts
    requires NoDup(order)
    ensures var top := TopCategories(order, counts);
      |top| <= 5 && NoDup(top) && (forall c :: c in top ==> c in order)
  {
    var es := Entries(order, counts);
    var r := Ranked(order, counts);
    var top := TopCategories(order, counts);
    SortByFacts(es, DescendingCount);
    RankedMembers(order, counts);
    EntriesNoDup(order, counts);
    NoDupMultiset(es, r);
    TopIsRankedPrefix(order, counts);
    forall i, j | 0 <= i < j < |top| ensures top[i] != top[j] {
      assert r[i] in r && r[j] in r;
    }
    forall c | c in top ensures c in order {
      var i :| 0 <= i < |top| && top[i] == c;
      assert r[i] in r;
    }
  }

  lemma TopOrdered(order: seq<string>, counts: map<string, nat>)
    requires forall k :: k in order ==> k in counts
    ensures var top := TopCategories(order, counts);
      (forall c :: c in top ==> c in order) &&
      forall i, j :: 0 <= i < j < |top| ==> counts[top[i]] >= counts[top[j]]
  {
    SortByFacts(Entries(order, counts), DescendingCount);
    TopIsRankedPrefix(order, counts);
  }

  lemma TopNotOutranked(order: seq<string>, counts: map<string, nat>)
    requires forall k :: k in order ==> k in counts
    ensures var top := TopCategories(order, counts);
      (forall c :: c in top ==> c in order) &&
      forall c, i :: c in order && c !in top && 0 <= i < |top| ==> counts[c] <= counts[top[i]]
  {
    var r := Ranked(order, counts);
    var top := TopCategories(order, counts);
    SortByFacts(Entries(order, counts), DescendingCount);
    RankedMembers(order, counts);
    TopIsRankedPrefix(order, counts);
    forall c, i | c in order && c !in top && 0 <= i < |top| ensures counts[c] <= counts[top[i]] {
      var e := CategoryEntry(c, counts[c]);
      assert e in r;
      var j :| 0 <= j < |r| && r[j] == e;
      assert i < j;
    }
  }

  /** Among the categories that share a count, the top list keeps the order
      Object.entries gives them: for every count, the taken entries with that
      count are a prefix of all entries with that count, in entries order. */
  lemma TopCategoriesKeepTieOrder(order: seq<string>, counts: map<string, nat>, n: int)
    requires forall k :: k in order ==> k in counts
    ensures var r := Ranked(order, counts);
      WithKey(r[..MinInt(5, |r|)], DescendingCount, -n) <= WithKey(Entries(order, counts), DescendingCount, -n)
    ensures var r := Ranked(order, counts);
      forall i :: 0 <= i < MinInt(5, |r|) ==> TopCategories(order, counts)[i] == r[i].category
  {
    var es := Entries(order, counts);
    var r := Ranked(order, counts);
    SortByFacts(es, DescendingCount);
    WithKeyOfPrefix(r, MinInt(5, |r|), DescendingCount, -n);
    assert WithKey(r, DescendingCount, -n) == WithKey(es, DescendingCount, -n);
    TopIsRankedPrefix(order, counts);
  }

  // ---------------------------------------------------------------------
  // aggregateReviews
  // ---------------------------------------------------------------------

  /** aggregateReviews as one expression: the specification of the method. */
  function AggregateOf(rs: seq<SentimentReview>): Summary
  {
    if |rs| == 0 then EmptySummary
    else
      var all := AllCategories(rs);
      CategoryCountsKeys(rs);
      Summary(
        SumScores(rs) / |rs| as real,
        CountLabel(rs, Positive),
        CountLabel(rs, Negative),
        CountLabel(rs, Neutral),
        TopCategories(EntryOrder(Dedup(all)), CategoryCounts(rs)))
  }

  lemma CategoryCountsKeys(rs: seq<SentimentReview>)
    ensures forall k :: k in EntryOrder(Dedup(AllCategories(rs))) ==> k in CategoryCounts(rs)
  {
    EntryOrderPermutes(Dedup(AllCategories(rs)));
    forall k | k in EntryOrder(Dedup(AllCategories(rs))) ensures k in CategoryCounts(rs) {
      assert k in multiset(Dedup(AllCategories(rs)));
    }
  }

  method AggregateReviews(rs: seq<SentimentReview>) returns (s: Summary)
    ensures s == AggregateOf(rs)
  {
    if |rs| == 0 {
      return EmptySummary;
    }
    var positives := CountLabel(rs, Positive);
    var negatives := CountLabel(rs, Negative);
    var neutrals := CountLabel(rs, Neutral);
    var avgScore := SumScores(rs) / |rs| as real;
    var keys, counts := CountCategories(rs);
    CategoryCountsKeys(rs);
    var top := TopCategories(EntryOrder(keys), counts);
    s := Summary(avgScore, positives, negatives, neutrals, top);
  }

  /** An empty list aggregates to zeros and no categories. */
  lemma AggregateEmpty(rs: seq<SentimentReview>)
    requires |rs| == 0
    ensures AggregateOf(rs) == Summary(0.0, 0, 0, 0, [])
  {
  }

  /** For a non-empty list the label counts add up to the list length exactly
      when every label is one of the three. */
  lemma AggregateLabelCounts(rs: seq<SentimentReview>)
    requires |rs| > 0
    ensures var s := AggregateOf(rs);
      s.positives + s.negatives + s.neutrals <= |rs|
    ensures var s := AggregateOf(rs);
      s.positives + s.negatives + s.neutrals == |rs| <==> forall i :: 0 <= i < |rs| ==> KnownLabel(rs[i].sentimentLabel)
  {
    LabelCountsSum(rs);
  }

  /** avgScore is the arithmetic mean: times the length it is the sum of the
      scores. */
  lemma AggregateMean(rs: seq<SentimentReview>)
    requires |rs| > 0
    ensures AggregateOf(rs).avgScore * |rs| as real == SumScores(rs)
  {
    DivTimes(AggregateOf(rs).avgScore, SumScores(rs), |rs| as real);
  }

  /** When every score lies in [-1, 1], so does the mean. */
  lemma AggregateMeanBounded(rs: seq<SentimentReview>)
    requires |rs| > 0
    requires forall i :: 0 <= i < |rs| ==> -1.0 <= rs[i].score <= 1.0
    ensures -1.0 <= AggregateOf(rs).avgScore <= 1.0
  {
    assert AggregateOf(rs).avgScore == SumScores(rs) / |rs| as real;
    MeanBounds(rs, -1.0, 1.0);
  }

  /** The top categories of a non-empty list are taken from the categories
      that occur, each once, at most five of them. */
  lemma AggregateTopCategoriesDistinct(rs: seq<SentimentReview>)
    requires |rs| > 0
    ensures var top := AggregateOf(rs).topCategories;
      |top| == MinInt(5, |Dedup(AllCategories(rs))|) && NoDup(top)
    ensures var top := AggregateOf(rs).topCategories;
      forall c :: c in top ==> exists i :: 0 <= i < |rs| && c in rs[i].categories
  {
    var all := AllCategories(rs);
    var order := EntryOrder(Dedup(all));
    var counts := CategoryCounts(rs);
    OrderOfAllCategories(rs);
    var top := TopCategories(order, counts);
    assert AggregateOf(rs).topCategories == top;
    TopCategoriesFacts(order, counts);
    AllCategoriesMembers(rs);
  }

  /** The top categories are ordered by non-increasing number of occurrences
      and never pass over a more frequent category. */
  lemma AggregateTopCategoriesRanked(rs: seq<SentimentReview>)
    requires |rs| > 0
    ensures var top := AggregateOf(rs).topCategories; var all := AllCategories(rs);
      forall i, j :: 0 <= i < j < |top| ==> Count(all, top[i]) >= Count(all, top[j])
    ensures var top := AggregateOf(rs).topCategories; var all := AllCategories(rs);
      forall c, i :: c in all && c !in top && 0 <= i < |top| ==> Count(all, c) <= Count(all, top[i])
  {
    var all := AllCategories(rs);
    var order := EntryOrder(Dedup(all));
    var counts := CategoryCounts(rs);
    OrderOfAllCategories(rs);
    var top := TopCategories(order, counts);
    assert AggregateOf(rs).topCategories == top;
    TopCategoriesFacts(order, counts);
  }

  /** When no category looks like an array index, Object.entries lists the
      categories in order of first occurrence, which is then the order ties
      keep. */
  lemma AggregateTieOrder(rs: seq<SentimentReview>)
    requires forall c :: c in AllCategories(rs) ==> !IsArrayIndex(c)
    ensures EntryOrder(Dedup(AllCategories(rs))) == Dedup(AllCategories(rs))
  {
    EntryOrderWithoutIndices(Dedup(AllCategories(rs)));
  }

  /** The keys Object.entries lists are exactly the categories that occur,
      each once. */
  lemma OrderOfAllCategories(rs: seq<SentimentReview>)
    ensures var keys := Dedup(AllCategories(rs));
      |EntryOrder(keys)| == |keys| && NoDup(EntryOrder(keys))
    ensures forall c :: c in EntryOrder(Dedup(AllCategories(rs))) <==> c in AllCategories(rs)
    ensures forall c :: c in EntryOrder(Dedup(AllCategories(rs))) ==> c in CategoryCounts(rs)
  {
    var all := AllCategories(rs);
    var keys := Dedup(all);
    var order := EntryOrder(keys);
    EntryOrderPermutes(keys);
    EntryOrderNoDup(keys);
    assert |order| == |keys| by {
      assert |multiset(order)| == |multiset(keys)|;
    }
    forall c ensures c in order <==> c in all {
      assert c in order <==> c in multiset(order);
      assert c in keys <==> c in multiset(keys);
    }
  }
}
