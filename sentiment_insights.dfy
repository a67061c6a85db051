/** The client sentiment page (src/pages/Freelancer/SentimentInsightsPage.tsx):
    the feedback list read from the backend and normalised into reviews,
    adding a feedback text, the optimistic delete with its rollback, the
    suggestions of all reviews without repeats, and the summary computed
    locally with aggregateReviews. Each handler is one atomic step; the
    backend's answers are parameters. */
module SentimentInsights {
  import opened Common
  import opened Domain
  import opened Aggregate

  /** One backend item. score is None when it is not a number; categories
      and suggestions are None when they are not arrays. */
  datatype FeedbackItem = FeedbackItem(
    id: JsString,
    uuid: JsString,
    pk: JsString,
    text: JsString,
    content: JsString,
    createdAt: JsString,
    score: Option<real>,
    sentimentLabel: JsString,
    categories: Option<seq<string>>,
    suggestions: Option<seq<string>>)

  /** The review an item becomes. Creation dates are parsed by `parse`
      (Date construction is not modelled); a missing one is `now`. */
  function Normalize(r: FeedbackItem, now: int, parse: string -> int): (v: SentimentReview)
    ensures v.id == PickId(r.id, r.uuid, r.pk)
    ensures v.text == TextOr(r.text, TextOr(r.content, ""))
    ensures v.createdAt == (if IsTruthy(r.createdAt) then parse(r.createdAt.s) else now)
    ensures r.score.Some? ==> v.score == r.score.value
    ensures r.score.None? ==> v.score == 0.0
    ensures v.sentimentLabel == TextOr(r.sentimentLabel, Neutral)
    ensures v.categories == (if r.categories.Some? then r.categories.value else [])
    ensures v.suggestions == (if r.suggestions.Some? then r.suggestions.value else [])
  {
    SentimentReview(
      PickId(r.id, r.uuid, r.pk),
      TextOr(r.text, TextOr(r.content, "")),
      if IsTruthy(r.createdAt) then parse(r.createdAt.s) else now,
      OrElse(r.score, 0.0),
      TextOr(r.sentimentLabel, Neutral),
      OrElse(r.categories, []),
      OrElse(r.suggestions, []))
  }

  /** The response mapped item by item; a response that is not an array
      (None) gives no reviews. */
  function NormalizeAll(data: Option<seq<FeedbackItem>>, now: int, parse: string -> int): (rs: seq<SentimentReview>)
    ensures data.None? ==> rs == []
    ensures data.Some? ==> |rs| == |data.value|
    ensures data.Some? ==> forall i :: 0 <= i < |rs| ==> rs[i] == Normalize(data.value[i], now, parse)
  {
    match data
    case None => []
    case Some(items) => seq(|items|, i requires 0 <= i < |items| => Normalize(items[i], now, parse))
  }

  /** A normalised label is never empty: a missing or empty one becomes
      "neutral". */
  lemma NormalizedLabelNonEmpty(r: FeedbackItem, now: int, parse: string -> int)
    ensures Normalize(r, now, parse).sentimentLabel != ""
  {
  }

  /** Items that carry none of id, uuid and pk all get the id "undefined",
      so deleting one of them removes every one of them. */
  lemma MissingIdsCollide(a: FeedbackItem, b: FeedbackItem, others: seq<SentimentReview>, now: int, parse: string -> int)
    requires a.id == Undef && a.uuid == Undef && !IsTruthy(a.pk)
    requires b.id == Undef && b.uuid == Undef && !IsTruthy(b.pk)
    ensures PickId(a.id, a.uuid, a.pk) == PickId(b.id, b.uuid, b.pk) == "undefined"
    ensures var ra := Normalize(a, now, parse);
      var rb := Normalize(b, now, parse);
      rb !in WithoutReview([ra, rb] + others, ra.id)
  {
  }

  /** Backend labels are not validated, so a review labelled otherwise is
      counted under none of the three labels of the summary. */
  lemma UnknownLabelNotCounted(rs: seq<SentimentReview>)
    requires |rs| > 0 && exists i :: 0 <= i < |rs| && !KnownLabel(rs[i].sentimentLabel)
    ensures var s := AggregateOf(rs);
      s.positives + s.negatives + s.neutrals < |rs|
  {
    AggregateLabelCounts(rs);
  }

  /** `reviews.map(r => r.suggestions)` */
  function SuggestionLists(rs: seq<SentimentReview>): (ss: seq<seq<string>>)
    ensures |ss| == |rs| && forall i :: 0 <= i < |rs| ==> ss[i] == rs[i].suggestions
  {
    seq(|rs|, i requires 0 <= i < |rs| => rs[i].suggestions)
  }

  /** `Array.from(new Set(reviews.flatMap(r => r.suggestions)))`: every
      suggestion of every review, once, in the order of first occurrence
      (Common.DedupFirstOccurrenceOrder). */
  function AllSuggestions(rs: seq<SentimentReview>): (r: seq<string>)
    ensures forall x :: x in r <==> exists i :: 0 <= i < |rs| && x in rs[i].suggestions
    ensures NoDup(r)
  {
    Dedup(Flatten(SuggestionLists(rs)))
  }

  /** The suggestions of an added review are kept, after the earlier ones. */
  lemma AllSuggestionsSnoc(rs: seq<SentimentReview>, v: SentimentReview)
    ensures AllSuggestions(rs + [v]) == Dedup(Flatten(SuggestionLists(rs)) + v.suggestions)
  {
    assert SuggestionLists(rs + [v]) == SuggestionLists(rs) + [v.suggestions];
    FlattenSnoc(SuggestionLists(rs), v.suggestions);
  }

  class InsightsPage {
    var reviews: seq<SentimentReview>
    var newText: string

    constructor()
      ensures reviews == [] && newText == ""
    {
      reviews := [];
      newText := "";
    }

    /** aggLocal, the summary the page shows. */
    function Summary(): Aggregate.Summary
      reads this
    {
      AggregateOf(reviews)
    }

    method TypeText(s: string)
      modifies this
      ensures newText == s && reviews == old(reviews)
    {
      newText := s;
    }

    /** load: a successful fetch replaces the list with the normalised
      response; a failed one keeps it. */
    method Load(res: Response<Option<seq<FeedbackItem>>>, now: int, parse: string -> int)
      modifies this
      ensures res.Ok? ==> reviews == NormalizeAll(res.value, now, parse)
      ensures res.Failed? ==> reviews == old(reviews)
      ensures newText == old(newText)
    {
      if res.Ok? {
        reviews := NormalizeAll(res.value, now, parse);
      }
    }

    /** handleAdd: blank input sends nothing; otherwise the trimmed text is
      sent, and only a successful add clears the input and reloads. */
    method HandleAdd(added: bool, reload: Response<Option<seq<FeedbackItem>>>, now: int, parse: string -> int)
      returns (sent: Option<string>)
      modifies this
      ensures IsBlank(old(newText)) ==> sent == None && newText == old(newText) && reviews == old(reviews)
      ensures !IsBlank(old(newText)) ==> sent == Some(Trim(old(newText)))
      ensures !IsBlank(old(newText)) && !added ==> newText == old(newText) && reviews == old(reviews)
      ensures !IsBlank(old(newText)) && added ==> newText == ""
      ensures !IsBlank(old(newText)) && added ==>
        reviews == (if reload.Ok? then NormalizeAll(reload.value, now, parse) else old(reviews))
    {
      if IsBlank(newText) {
        return None;
      }
      sent := Some(Trim(newText));
      if added {
        newText := "";
        Load(reload, now, parse);
      }
    }

    /** The delete button: the reviews with that id disappear at once; a
      failed delete puts the snapshot back, a successful one reloads. */
    method Delete(id: string, deleted: bool, reload: Response<Option<seq<FeedbackItem>>>, now: int, parse: string -> int)
      modifies this
      ensures !deleted ==> reviews == old(reviews)
      ensures deleted && reload.Failed? ==> reviews == WithoutReview(old(reviews), id)
      ensures deleted && reload.Ok? ==> reviews == NormalizeAll(reload.value, now, parse)
      ensures newText == old(newText)
    {
      var prev := reviews;
      reviews := WithoutReview(prev, id);
      if !deleted {
        reviews := prev;
        return;
      }
      Load(reload, now, parse);
    }
  }
}
