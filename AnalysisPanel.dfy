/** The analysis panel (src/components/AnalysisPanel.tsx): the sub-reviews it
    lists, and the effect that stores one combined record for a whole
    analysis at the head of the history, with no cap on its length. */
module AnalysisPanel {
  import opened JsValues
  import opened JsStrings
  import opened Types
  import opened Storage
  import opened Utils

  const COMPLETED_LABEL := "Completed"
  const DEFAULT_LANGUAGE := "javascript"
  const PART_SEPARATOR := "\n\n"

  /** `reviewItems`: the result's sub-reviews, or none without a result. */
  function ReviewItems(result: Option<Analysis>): (items: seq<ReviewItem>)
    ensures result.None? ==> items == []
    ensures result.Some? && result.value.reviews.Some? ==> items == result.value.reviews.value
    ensures result.Some? && result.value.reviews.None? ==> items == []
  {
    if result.Some? && result.value.reviews.Some? then result.value.reviews.value else []
  }

  /** A value interpolated into a template: a missing one prints as "undefined". */
  function TemplateText(o: Option<string>): string {
    match o
    case Some(s) => s
    case None => "undefined"
  }

  /** The text one sub-review contributes:
      `{i+1}. [{type}] {title}` / `{description}` / `{codeSuggestion}`. */
  function DescriptionPart(i: nat, r: ReviewItem): string {
    NatToString(i + 1) + ". [" + TemplateText(r.reviewType) + "] " + Or(r.title, "No title") + "\n"
      + Or(r.description, "No description") + "\n" + Or(r.codeSuggestion, "")
  }

  function DescriptionParts(reviews: seq<ReviewItem>): (parts: seq<string>)
    ensures |parts| == |reviews|
    ensures forall i :: 0 <= i < |reviews| ==> parts[i] == DescriptionPart(i, reviews[i])
  {
    seq(|reviews|, i requires 0 <= i < |reviews| => DescriptionPart(i, reviews[i]))
  }

  /** The combined description: the parts joined by blank lines. */
  function CombinedDescription(reviews: seq<ReviewItem>): string {
    Join(DescriptionParts(reviews), PART_SEPARATOR)
  }

  /** Sub-review i's part stands, whole, at its place in the combined
      description, after the i earlier parts and their separators. */
  lemma CombinedDescriptionPart(reviews: seq<ReviewItem>, i: nat)
    requires i < |reviews|
    ensures var parts := DescriptionParts(reviews);
      OccursAt(CombinedDescription(reviews), DescriptionPart(i, reviews[i]), PartOffset(parts, PART_SEPARATOR, i))
  {
    var parts := DescriptionParts(reviews);
    assert parts[i] == DescriptionPart(i, reviews[i]);
    JoinPartAt(parts, PART_SEPARATOR, i);
  }

  /** Each part opens with its number, i+1, and the bracketed type. */
  lemma DescriptionPartHeader(i: nat, r: ReviewItem)
    ensures var p := DescriptionPart(i, r);
      var head := NatToString(i + 1) + ". [" + TemplateText(r.reviewType) + "] ";
      |head| <= |p| && p[..|head|] == head
  {
    var p := DescriptionPart(i, r);
    var head := NatToString(i + 1) + ". [" + TemplateText(r.reviewType) + "] ";
    var tail := Or(r.title, "No title") + "\n" + Or(r.description, "No description") + "\n" + Or(r.codeSuggestion, "");
    assert p == head + tail;
  }

  /** No sub-reviews give an empty description. */
  lemma EmptyDescription()
    ensures CombinedDescription([]) == ""
  {
  }

  /** The first sub-review's language, "javascript" when it is missing or empty. */
  function ReviewLanguage(reviews: seq<ReviewItem>): (lang: string)
    ensures lang != ""
    ensures |reviews| > 0 && Truthy(reviews[0].language) ==> lang == reviews[0].language.value
    ensures |reviews| == 0 || !Truthy(reviews[0].language) ==> lang == DEFAULT_LANGUAGE
  {
    if |reviews| == 0 then DEFAULT_LANGUAGE else Or(reviews[0].language, DEFAULT_LANGUAGE)
  }

  /** The one record that stands for a whole analysis. */
  function CombinedReview(result: Analysis, reviews: seq<ReviewItem>, createdAt: string): (c: ReviewItem)
    requires result.reviews == Some(reviews)
    ensures c.title == Some("AI Code Review (" + ReviewLanguage(reviews) + ")")
    ensures c.language == Some(ReviewLanguage(reviews))
    ensures c.description == Some(CombinedDescription(reviews))
    ensures c.reviewType == Some(COMPLETED_LABEL) && c.status == Some(COMPLETED_LABEL)
    ensures c.code == Some("") && c.result == Some(result) && c.createdAt == Some(createdAt)
    // the record's score is its first sub-review's score
    ensures GetReviewScore(c) == if |reviews| > 0 then reviews[0].score.GetOr(0) else 0
  {
    var lang := ReviewLanguage(reviews);
    ReviewItem(
      id := None,
      title := Some("AI Code Review (" + lang + ")"),
      description := Some(CombinedDescription(reviews)),
      codeSuggestion := None,
      reviewType := Some(COMPLETED_LABEL),
      status := Some(COMPLETED_LABEL),
      language := Some(lang),
      code := Some(""),
      result := Some(result),
      createdAt := Some(createdAt),
      timestamp := None,
      score := None)
  }

  /** The history after the effect: the combined record, then the old history
      untouched; it is one longer, whatever its length was. */
  function WithCombined(history: seq<ReviewItem>, result: Analysis, reviews: seq<ReviewItem>, createdAt: string): (h: seq<ReviewItem>)
    requires result.reviews == Some(reviews)
    ensures |h| == |history| + 1
    ensures h[0] == CombinedReview(result, reviews, createdAt)
    ensures h[1..] == history
  {
    [CombinedReview(result, reviews, createdAt)] + history
  }

  /** The effect run when `result` changes. With no result nothing happens;
      a corrupt stored history, or a result without `reviews`, throws before
      anything is written. `createdAt` is the `toISOString()` clock reading. */
  method SaveCombinedReview(store: LocalStorage, result: Option<Analysis>, createdAt: string) returns (written: bool)
    modifies store
    ensures written <==> result.Some? && result.value.reviews.Some?
                         && HistoryOrEmpty(old(store.GetItem(HISTORY_KEY))).Some?
    ensures written ==> store.entries == old(store.entries)[HISTORY_KEY := ReviewsJson(
              WithCombined(HistoryOrEmpty(old(store.GetItem(HISTORY_KEY))).value,
                           result.value, result.value.reviews.value, createdAt))]
    ensures !written ==> store.entries == old(store.entries)
  {
    if result.None? {
      return false;
    }
    var stored := HistoryOrEmpty(store.GetItem(HISTORY_KEY));
    if stored.None? || result.value.reviews.None? {
      return false;
    }
    var reviews := result.value.reviews.value;
    var combined := CombinedReview(result.value, reviews, createdAt);
    var updated := [combined] + stored.value;
    store.SetItem(HISTORY_KEY, ReviewsJson(updated));
    written := true;
  }
}
