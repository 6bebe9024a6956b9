/** Browser local storage as a map from key to stored value.
    A value written with `JSON.stringify` of a list is kept as that list;
    `JSON.parse` of it gives the list back. Any other stored string, such as
    the raw token or the first-time flag, is `Text`, which is not the JSON of
    a list and so does not parse as one. */
module Storage {
  import opened JsValues
  import opened Types

  const HISTORY_KEY := "reviewHistory"
  const STEPS_KEY := "onboardingSteps"
  const FIRST_TIME_KEY := "firstTimeUser"
  const TOKEN_KEY := "token"
  const USER_NAME_KEY := "userName"

  datatype Stored =
    | Text(text: string)
    | ReviewsJson(reviews: seq<ReviewItem>)
    | StepsJson(steps: seq<OnboardingStep>)

  /** A `getItem` result used as a condition: null and "" are falsy. */
  predicate IsTruthy(v: Option<Stored>) {
    v.Some? && v.value != Text("")
  }

  /** `JSON.parse` of a stored review history: the list, or a failure. */
  function ParseReviews(v: Stored): (r: Option<seq<ReviewItem>>)
    ensures r.Some? <==> v.ReviewsJson?
    ensures v.ReviewsJson? ==> r.value == v.reviews
  {
    match v
    case ReviewsJson(xs) => Some(xs)
    case _ => None
  }

  /** `JSON.parse` of stored onboarding steps: the list, or a failure. */
  function ParseSteps(v: Stored): (r: Option<seq<OnboardingStep>>)
    ensures r.Some? <==> v.StepsJson?
    ensures v.StepsJson? ==> r.value == v.steps
  {
    match v
    case StepsJson(xs) => Some(xs)
    case _ => None
  }

  /** The history a writer starts from: an absent or empty value stands for
      `[]`; anything else goes through `JSON.parse`, which may fail. */
  function HistoryOrEmpty(stored: Option<Stored>): (r: Option<seq<ReviewItem>>)
    ensures !IsTruthy(stored) ==> r == Some([])
    ensures IsTruthy(stored) ==> r == ParseReviews(stored.value)
  {
    if IsTruthy(stored) then ParseReviews(stored.value) else Some([])
  }

  /** A page's mount-time load of the history: with a truthy stored value the
      page's list becomes the parsed list, or [] when parsing fails; without
      one the list keeps its current value. */
  function LoadHistory(stored: Option<Stored>, current: seq<ReviewItem>): (r: seq<ReviewItem>)
    ensures !IsTruthy(stored) ==> r == current
    ensures IsTruthy(stored) && stored.value.ReviewsJson? ==> r == stored.value.reviews
    ensures IsTruthy(stored) && !stored.value.ReviewsJson? ==> r == []
  {
    if IsTruthy(stored) then ParseReviews(stored.value).GetOr([]) else current
  }

  class LocalStorage {
    var entries: map<string, Stored>

    constructor (initial: map<string, Stored>)
      ensures entries == initial
    {
      entries := initial;
    }

    /** `getItem(key)`: the stored value, or null. */
    function GetItem(key: string): (r: Option<Stored>)
      reads this
      ensures r.Some? <==> key in entries
      ensures r.Some? ==> r.value == entries[key]
    {
      if key in entries then Some(entries[key]) else None
    }

    /** `setItem(key, v)`: overwrites one key and no other. */
    method SetItem(key: string, v: Stored)
      modifies this
      ensures entries == old(entries)[key := v]
      ensures GetItem(key) == Some(v)
    {
      entries := entries[key := v];
    }
  }
}
