/** What the history's two writers and its readers do together: the review
    page and the analysis panel both write `reviewHistory`, and the
    dashboard and the history page read it with different field names and
    different status spellings. */
module HistoryFlows {
  import opened JsValues
  import opened JsArrays
  import opened Types
  import opened Utils
  import opened Review
  import opened AnalysisPanel
  import opened HistoryPage
  import opened Dashboard
  import opened ActivityTable

  /** A review page save followed by the panel's save for the same result
      leaves min(50, n + k) + 1 entries: the cap of 50 does not bound the
      history, which reaches 51 once n + k >= 50. */
  lemma BothWritersLength(history: seq<ReviewItem>, code: string, result: Analysis, ai: seq<ReviewItem>,
                          now: nat -> nat, stamp: nat -> string, createdAt: string)
    requires result.reviews == Some(ai)
    ensures var h := WithCombined(SavedHistory(history, code, ai, now, stamp), result, ai, createdAt);
      |h| == Min(HISTORY_CAP, |history| + |ai|) + 1
      && (|history| + |ai| >= HISTORY_CAP ==> |h| == HISTORY_CAP + 1)
  {
  }

  /** Repeated panel saves grow the history by one each, without bound. */
  lemma {:induction false} PanelSavesUnbounded(history: seq<ReviewItem>, result: Analysis, ai: seq<ReviewItem>,
                                               createdAt: string, times: nat)
    requires result.reviews == Some(ai)
    ensures |PanelSaves(history, result, ai, createdAt, times)| == |history| + times
    decreases times
  {
    if times > 0 {
      PanelSavesUnbounded(history, result, ai, createdAt, times - 1);
    }
  }

  function PanelSaves(history: seq<ReviewItem>, result: Analysis, ai: seq<ReviewItem>, createdAt: string,
                      times: nat): seq<ReviewItem>
    requires result.reviews == Some(ai)
    decreases times
  {
    if times == 0 then history
    else WithCombined(PanelSaves(history, result, ai, createdAt, times - 1), result, ai, createdAt)
  }

  /** The panel's record says "Completed", not "COMPLETED": the dashboard
      never counts it as completed and lists it as "Failed". */
  lemma PanelRecordShownFailed(result: Analysis, ai: seq<ReviewItem>, createdAt: string, idx: nat, today: string)
    requires result.reviews == Some(ai)
    ensures var c := CombinedReview(result, ai, createdAt);
      !StatusIs(c, STATUS_COMPLETED) && ActivityRow(c, idx, today).status == REPO_FAILED
  {
  }

  /** The review page's entries carry no status, so the dashboard lists them
      as "Failed"; they carry no result, so they score 0; an entry without
      a type counts as "ANALYZING" on the history page. */
  lemma ReviewEntryAsRead(code: string, r: ReviewItem, idx: nat, now: nat, stamp: string, today: string)
    ensures var m := MapReview(code, r, idx, now, stamp);
      ActivityRow(m, idx, today).status == REPO_FAILED
      && GetReviewScore(m) == 0
      && (!Truthy(r.reviewType) ==> TypeIs(m, STATUS_ANALYZING))
  {
    NoResultScoresZero(MapReview(code, r, idx, now, stamp));
  }

  /** Every activity row has a name, so the table's empty search shows them all. */
  lemma EmptySearchShowsAllActivity(reviews: seq<ReviewItem>, today: nat -> string, term: Option<string>)
    requires term.None? || term == Some("")
    ensures FilteredActivity(ActivityData(reviews, today), term) == ActivityData(reviews, today)
  {
    EmptyTermKeepsAll(ActivityData(reviews, today), term);
  }

  /** A history written only by the review page averages 0 on the dashboard. */
  lemma ReviewOnlyHistoryAveragesZero(reviews: seq<ReviewItem>)
    requires forall i :: 0 <= i < |reviews| ==> reviews[i].result.None?
    ensures Dashboard.Metrics(reviews).avgScore == 0
  {
    assert ScoresWithin(reviews, 0, 0);
    AverageWithin(reviews, 0, 0);
  }
}
