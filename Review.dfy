/** The review page (src/pages/Review.tsx): submitting code and saving the
    returned sub-reviews at the head of the stored history, which keeps at
    most 50 entries. */
module Review {
  import opened JsValues
  import opened JsStrings
  import opened Types
  import opened Storage

  const HISTORY_CAP: nat := 50

  function Min(a: int, b: int): int {
    if a <= b then a else b
  }

  /** The id of the idx-th entry of a batch: the clock reading, a dash, idx. */
  function HistoryId(now: nat, idx: nat): string {
    NatToString(now) + "-" + NatToString(idx)
  }

  /** One backend sub-review as the page stores it. `now` and `stamp` are the
      clock readings (`Date.now()`, `toLocaleString()`) taken for this entry. */
  function MapReview(code: string, r: ReviewItem, idx: nat, now: nat, stamp: string): (m: ReviewItem)
    ensures m.id == Some(HistoryId(now, idx)) && m.timestamp == Some(stamp)
    ensures Truthy(r.title) ==> m.title == r.title
    ensures !Truthy(r.title) ==> m.title == Some("Code Review " + NatToString(idx + 1))
    ensures Truthy(r.description) ==> m.description == r.description
    ensures !Truthy(r.description) ==> m.description == Some("No description available")
    ensures Truthy(r.codeSuggestion) ==> m.codeSuggestion == r.codeSuggestion
    ensures !Truthy(r.codeSuggestion) ==> m.codeSuggestion == Some(code)
    ensures Truthy(r.reviewType) ==> m.reviewType == r.reviewType
    ensures !Truthy(r.reviewType) ==> m.reviewType == Some(STATUS_ANALYZING)
    // nothing else is written: no status, result, language, code or date
    ensures m.status.None? && m.result.None? && m.language.None? && m.code.None?
    ensures m.createdAt.None? && m.score.None?
  {
    ReviewItem(
      id := Some(HistoryId(now, idx)),
      title := Some(Or(r.title, "Code Review " + NatToString(idx + 1))),
      description := Some(Or(r.description, "No description available")),
      codeSuggestion := Some(Or(r.codeSuggestion, code)),
      reviewType := Some(Or(r.reviewType, STATUS_ANALYZING)),
      status := None,
      language := None,
      code := None,
      result := None,
      createdAt := None,
      timestamp := Some(stamp),
      score := None)
  }

  /** `aiReviews.map(...)`, with the clock read once per element. */
  function MappedReviews(code: string, ai: seq<ReviewItem>, now: nat -> nat, stamp: nat -> string): (ms: seq<ReviewItem>)
    ensures |ms| == |ai|
    ensures forall i :: 0 <= i < |ai| ==> ms[i] == MapReview(code, ai[i], i, now(i), stamp(i))
  {
    seq(|ai|, i requires 0 <= i < |ai| => MapReview(code, ai[i], i, now(i), stamp(i)))
  }

  /** The history written back: the mapped batch first, in its own order, then
      the old history in its order, cut to the first 50 entries. */
  function SavedHistory(history: seq<ReviewItem>, code: string, ai: seq<ReviewItem>,
                        now: nat -> nat, stamp: nat -> string): (h: seq<ReviewItem>)
    ensures |h| == Min(HISTORY_CAP, |history| + |ai|)
    ensures forall i :: 0 <= i < |h| && i < |ai| ==> h[i] == MapReview(code, ai[i], i, now(i), stamp(i))
    ensures forall i :: |ai| <= i < |h| ==> h[i] == history[i - |ai|]
    ensures |ai| < |h| ==> h[|ai|..] == history[..|h| - |ai|]
  {
    var all := MappedReviews(code, ai, now, stamp) + history;
    var h := all[..Min(HISTORY_CAP, |all|)];
    assert |ai| < |h| ==> h[|ai|..] == history[..|h| - |ai|];
    h
  }

  /** No entry of a batch leaves a title, description or type empty. */
  lemma MappedFieldsPresent(code: string, r: ReviewItem, idx: nat, now: nat, stamp: string)
    ensures var m := MapReview(code, r, idx, now, stamp);
      Truthy(m.title) && Truthy(m.description) && Truthy(m.reviewType) && Truthy(m.id)
  {
  }

  /** The index of the first '-' in `s`, or `|s|` when there is none. */
  function FirstDash(s: string): (k: nat)
    ensures k <= |s|
    ensures forall i :: 0 <= i < k ==> s[i] != '-'
    ensures k < |s| ==> s[k] == '-'
  {
    if s == [] then 0 else if s[0] == '-' then 0 else 1 + FirstDash(s[1..])
  }

  lemma {:induction false} FirstDashAfterDigits(a: string, b: string)
    requires AllDigits(a)
    ensures FirstDash(a + "-" + b) == |a|
    decreases |a|
  {
    if a != [] {
      FirstDashAfterDigits(a[1..], b);
      assert (a + "-" + b)[1..] == a[1..] + "-" + b;
    }
  }

  /** `a + "-" + b` splits back at its dash when `a` is all digits. */
  lemma SplitAtDash(a: string, b: string, c: string, d: string)
    requires AllDigits(a) && AllDigits(c)
    requires a + "-" + b == c + "-" + d
    ensures a == c && b == d
  {
    var x := a + "-" + b;
    FirstDashAfterDigits(a, b);
    FirstDashAfterDigits(c, d);
    assert a == x[..|a|] == c;
    assert b == x[|a| + 1..] == d;
  }

  /** Entries of one batch get distinct ids, whatever the clock reads. */
  lemma BatchIdsDistinct(now: nat -> nat, i: nat, j: nat)
    requires i != j
    ensures HistoryId(now(i), i) != HistoryId(now(j), j)
  {
    if HistoryId(now(i), i) == HistoryId(now(j), j) {
      SplitAtDash(NatToString(now(i)), NatToString(i), NatToString(now(j)), NatToString(j));
      NatToStringInjective(i, j);
      assert false;
    }
  }

  /** `saveToHistory`: prepend the mapped batch, keep 50, overwrite the key.
      A stored value that does not parse makes `JSON.parse` throw, and
      nothing is written (`ok` is false). */
  method SaveToHistory(store: LocalStorage, code: string, aiReviews: seq<ReviewItem>,
                       now: nat -> nat, stamp: nat -> string) returns (ok: bool)
    modifies store
    ensures ok <==> HistoryOrEmpty(old(store.GetItem(HISTORY_KEY))).Some?
    ensures ok ==> store.entries == old(store.entries)[HISTORY_KEY :=
      ReviewsJson(SavedHistory(HistoryOrEmpty(old(store.GetItem(HISTORY_KEY))).value, code, aiReviews, now, stamp))]
    ensures !ok ==> store.entries == old(store.entries)
  {
    var stored := store.GetItem(HISTORY_KEY);
    var history: seq<ReviewItem>;
    if IsTruthy(stored) {
      var parsed := ParseReviews(stored.value);
      if parsed.None? {
        return false;
      }
      history := parsed.value;
    } else {
      history := [];
    }
    ghost var before := history;
    var mapped := MappedReviews(code, aiReviews, now, stamp);
    history := mapped + history;
    store.SetItem(HISTORY_KEY, ReviewsJson(history[..Min(HISTORY_CAP, |history|)]));
    assert history[..Min(HISTORY_CAP, |history|)] == SavedHistory(before, code, aiReviews, now, stamp);
    ok := true;
  }

  /** What the backend request ends with: a response body, or an error. */
  datatype HttpReply =
    | Replied(data: Option<Analysis>)
    | Failed(dataError: Option<string>, message: Option<string>)

  const NOT_LOGGED_IN := "User not logged in"

  /** The error text the page shows for a failed request. */
  function FailureText(dataError: Option<string>, message: Option<string>): string {
    Or(dataError, Or(message, "Something went wrong"))
  }

  class ReviewPage {
    var code: string
    var analysisResult: Option<Analysis>
    var isLoading: bool
    var error: Option<string>

    constructor ()
      ensures code == "" && analysisResult == None && !isLoading && error == None
    {
      code := "";
      analysisResult := None;
      isLoading := false;
      error := None;
    }

    /** `submitCode`. Without a token the request is not made and nothing is
        stored. Otherwise `reply` is the request's outcome; the history is
        written only when the body has `reviews`. `parseFailure` is the
        message `JSON.parse` throws when the stored history is corrupt. */
    method SubmitCode(store: LocalStorage, reply: HttpReply, now: nat -> nat, stamp: nat -> string,
                      parseFailure: string)
      modifies this, store
      ensures !isLoading && code == old(code)
      ensures !IsTruthy(old(store.GetItem(TOKEN_KEY))) ==>
                error == Some(NOT_LOGGED_IN) && analysisResult == old(analysisResult)
                && store.entries == old(store.entries)
      ensures IsTruthy(old(store.GetItem(TOKEN_KEY))) && reply.Failed? ==>
                error == Some(FailureText(reply.dataError, reply.message))
                && analysisResult == old(analysisResult) && store.entries == old(store.entries)
      ensures IsTruthy(old(store.GetItem(TOKEN_KEY))) && reply.Replied? ==>
                analysisResult == reply.data
      ensures IsTruthy(old(store.GetItem(TOKEN_KEY))) && reply.Replied?
              && !(reply.data.Some? && reply.data.value.reviews.Some?) ==>
                error == None && store.entries == old(store.entries)
      ensures IsTruthy(old(store.GetItem(TOKEN_KEY))) && reply.Replied?
              && reply.data.Some? && reply.data.value.reviews.Some? ==>
                var before := HistoryOrEmpty(old(store.GetItem(HISTORY_KEY)));
                (before.Some? ==> error == None && store.entries == old(store.entries)[HISTORY_KEY :=
                   ReviewsJson(SavedHistory(before.value, old(code), reply.data.value.reviews.value, now, stamp))])
                && (before.None? ==> error == Some(parseFailure) && store.entries == old(store.entries))
    {
      isLoading := true;
      error := None;
      var token := store.GetItem(TOKEN_KEY);
      if !IsTruthy(token) {
        error := Some(NOT_LOGGED_IN);
        isLoading := false;
        return;
      }
      match reply {
        case Failed(dataError, message) =>
          error := Some(FailureText(dataError, message));
        case Replied(data) =>
          analysisResult := data;
          if data.Some? && data.value.reviews.Some? {
            var ok := SaveToHistory(store, code, data.value.reviews.value, now, stamp);
            if !ok {
              error := Some(parseFailure);
            }
          }
      }
      isLoading := false;
    }
  }
}
