/** The history page (src/pages/HistoryPage.tsx): the stored reviews, a
    case-insensitive search over title and description, counts by the
    record's `type`, and deleting a card. */
module HistoryPage {
  import opened JsValues
  import opened JsStrings
  import opened JsArrays
  import opened Types
  import opened Storage

  /** A review matches when its lower-cased title or description contains
      the lower-cased term; a missing field reads as "". */
  predicate MatchesSearch(r: ReviewItem, term: string) {
    Includes(Lower(r.title.GetOr("")), Lower(term))
    || Includes(Lower(r.description.GetOr("")), Lower(term))
  }

  /** `filtered`: the matching reviews, in history order, none dropped. */
  function FilterReviews(reviews: seq<ReviewItem>, term: string): (r: seq<ReviewItem>)
    ensures forall i :: 0 <= i < |r| ==> MatchesSearch(r[i], term)
    ensures forall x :: MatchesSearch(x, term) ==> multiset(r)[x] == multiset(reviews)[x]
    ensures forall x :: !MatchesSearch(x, term) ==> multiset(r)[x] == 0
    ensures IsSubsequence(r, reviews)
  {
    FilterKeepsExactly(reviews, x => MatchesSearch(x, term));
    Filter(reviews, x => MatchesSearch(x, term))
  }

  /** An empty search term keeps every review. */
  lemma EmptySearchKeepsAll(reviews: seq<ReviewItem>)
    ensures FilterReviews(reviews, "") == reviews
  {
    FilterAll(reviews, x => MatchesSearch(x, ""));
  }

  /** The search ignores the case of the term. */
  lemma SearchIgnoresTermCase(reviews: seq<ReviewItem>, term: string)
    ensures FilterReviews(reviews, Lower(term)) == FilterReviews(reviews, term)
  {
    LowerIdempotent(term);
    FilterSameTest(reviews, x => MatchesSearch(x, Lower(term)), x => MatchesSearch(x, term));
  }

  datatype HistoryMetrics = HistoryMetrics(total: nat, completed: nat, analyzing: nat, error: nat)

  predicate TypeIs(r: ReviewItem, value: string) {
    r.reviewType == Some(value)
  }

  /** `metrics`: counts by the record's `type`, compared with the upper-case
      ReviewStatus values. */
  function Metrics(reviews: seq<ReviewItem>): (m: HistoryMetrics)
    ensures m.total == |reviews|
    ensures m.completed + m.analyzing + m.error <= m.total
    ensures m.completed == |FilterTyped(reviews, STATUS_COMPLETED)|
    ensures m.analyzing == |FilterTyped(reviews, STATUS_ANALYZING)|
    ensures m.error == |FilterTyped(reviews, STATUS_ERROR)|
  {
    DisjointCounts(reviews, x => TypeIs(x, STATUS_COMPLETED), x => TypeIs(x, STATUS_ANALYZING),
                   x => TypeIs(x, STATUS_ERROR));
    HistoryMetrics(
      |reviews|,
      Count(reviews, x => TypeIs(x, STATUS_COMPLETED)),
      Count(reviews, x => TypeIs(x, STATUS_ANALYZING)),
      Count(reviews, x => TypeIs(x, STATUS_ERROR)))
  }

  /** The reviews whose `type` is exactly `value`. */
  function FilterTyped(reviews: seq<ReviewItem>, value: string): seq<ReviewItem> {
    Filter(reviews, x => TypeIs(x, value))
  }

  /** What deleting the card at position `k` of the filtered list should do:
      remove that card's review from the full list. */
  function DeleteCard(reviews: seq<ReviewItem>, term: string, k: nat): (r: seq<ReviewItem>)
    ensures var f := FilterReviews(reviews, term);
      k < |f| ==> |r| == |reviews| - 1 && multiset(r) + multiset{f[k]} == multiset(reviews)
                  && FilterReviews(r, term) == f[..k] + f[k + 1..]
    ensures k >= |FilterReviews(reviews, term)| ==> r == reviews
    // the one review removed is card k's own (k cards come before it), and
    // the others keep their order
    ensures var f := FilterReviews(reviews, term);
      k < |f| ==> exists j :: (0 <= j < |reviews| && reviews[j] == f[k] && |FilterReviews(reviews[..j], term)| == k
                               && r == reviews[..j] + reviews[j + 1..])
  {
    var p := x => MatchesSearch(x, term);
    if k < |Filter(reviews, p)| then
      var j := NthMatch(reviews, p, k);
      RemoveNthMatch(reviews, p, k);
      assert reviews[j] == Filter(reviews, p)[k];
      Splice1(reviews, j)
    else
      reviews
  }

  class HistoryView {
    var reviews: seq<ReviewItem>
    var searchTerm: string

    constructor ()
      ensures reviews == [] && searchTerm == ""
    {
      reviews := [];
      searchTerm := "";
    }

    /** The mount effect: read the stored history; a corrupt value gives []. */
    method Load(store: LocalStorage)
      modifies this
      ensures reviews == LoadHistory(store.GetItem(HISTORY_KEY), old(reviews))
      ensures searchTerm == old(searchTerm)
    {
      var stored := store.GetItem(HISTORY_KEY);
      if IsTruthy(stored) {
        var parsed := ParseReviews(stored.value);
        if parsed.Some? {
          reviews := parsed.value;
        } else {
          reviews := [];
        }
      }
    }

    /** `saveReviews`: the list shown and the list stored are the same. */
    method SaveReviews(store: LocalStorage, updated: seq<ReviewItem>)
      modifies this, store
      ensures reviews == updated && searchTerm == old(searchTerm)
      ensures store.entries == old(store.entries)[HISTORY_KEY := ReviewsJson(updated)]
      ensures LoadHistory(store.GetItem(HISTORY_KEY), []) == reviews
    {
      reviews := updated;
      store.SetItem(HISTORY_KEY, ReviewsJson(updated));
    }

    /** The search box's change handler: the term becomes the box's text. */
    method SetSearchTerm(term: string)
      modifies this
      ensures searchTerm == term && reviews == old(reviews)
    {
      searchTerm := term;
    }

    /** `handleDelete(idx)`: copy the list, `splice(idx, 1)`, save. The index
        is the card's position in the filtered list. */
    method HandleDelete(store: LocalStorage, idx: int)
      modifies this, store
      ensures reviews == Splice1(old(reviews), idx) && searchTerm == old(searchTerm)
      ensures 0 <= idx < |old(reviews)| ==>
                |reviews| == |old(reviews)| - 1 && reviews == old(reviews)[..idx] + old(reviews)[idx + 1..]
      ensures idx >= |old(reviews)| ==> reviews == old(reviews)
      ensures idx < 0 && |old(reviews)| > 0 ==> |reviews| == |old(reviews)| - 1
      ensures store.entries == old(store.entries)[HISTORY_KEY := ReviewsJson(reviews)]
    {
      var updated := reviews;
      updated := Splice1(updated, idx);
      SaveReviews(store, updated);
    }

    /** Deleting the card at position `k` of the filtered list, as the page
        evidently means to: the card's own review goes, and the filtered
        list loses exactly that card. */
    method HandleDeleteCard(store: LocalStorage, k: nat)
      modifies this, store
      ensures reviews == DeleteCard(old(reviews), searchTerm, k) && searchTerm == old(searchTerm)
      ensures k < |old(Filtered())| ==> Filtered() == old(Filtered())[..k] + old(Filtered())[k + 1..]
      ensures k < |old(Filtered())| ==>
                exists j :: (0 <= j < |old(reviews)| && old(reviews)[j] == old(Filtered())[k]
                             && |FilterReviews(old(reviews)[..j], searchTerm)| == k
                             && reviews == old(reviews)[..j] + old(reviews)[j + 1..])
      ensures k >= |old(Filtered())| ==> reviews == old(reviews)
      ensures store.entries == old(store.entries)[HISTORY_KEY := ReviewsJson(reviews)]
    {
      SaveReviews(store, DeleteCard(reviews, searchTerm, k));
    }

    /** The cards shown: the reviews the current term matches. */
    function Filtered(): seq<ReviewItem>
      reads this
    {
      FilterReviews(reviews, searchTerm)
    }
  }

  /** With a search active, the card at position 0 shows "beta" but deleting
      it removes "alpha": the page applies the filtered position to the full
      list. Deleting through the filtered position removes the right one. */
  lemma DeleteUsesFilteredPosition()
    ensures var alpha := EmptyItem().(title := Some("alpha"));
      var beta := EmptyItem().(title := Some("beta"));
      FilterReviews([alpha, beta], "beta") == [beta]
      && Splice1([alpha, beta], 0) == [beta]
      && DeleteCard([alpha, beta], "beta", 0) == [alpha]
  {
    var alpha := EmptyItem().(title := Some("alpha"));
    var beta := EmptyItem().(title := Some("beta"));
    assert Lower("beta") == "beta";
    assert Lower("alpha") == "alpha";
    assert OccursAt("beta", "beta", 0);
    forall j ensures !OccursAt("alpha", "beta", j) {
      if 0 <= j <= 1 {
        assert "alpha"[j] != 'b';
      }
    }
    assert !Includes("", "beta");
    assert MatchesSearch(beta, "beta");
    assert !MatchesSearch(alpha, "beta");
    assert FilterReviews([alpha, beta], "beta") == [beta] by {
      assert [alpha, beta][1..] == [beta];
    }
  }
}
