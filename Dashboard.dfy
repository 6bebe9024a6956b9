/** The dashboard (src/pages/Dashboard.tsx): the onboarding checklist and
    its persistence, the review metrics with their rounded average score,
    and the rows handed to the activity table. */
module Dashboard {
  import opened JsValues
  import opened JsStrings
  import opened JsArrays
  import opened Types
  import opened Storage
  import opened Utils

  const UNTITLED := "Untitled Review"

  /** `ONBOARDING_STEPS`: four steps, ids 1 to 4, none completed. */
  function OnboardingTemplate(): (steps: seq<OnboardingStep>)
    ensures |steps| == 4
    ensures forall i :: 0 <= i < |steps| ==> steps[i].id == i + 1 && !steps[i].isCompleted
  {
    [ OnboardingStep(1, "Create Profile", "Set up your profile to get started", "user-plus", false, "Complete Profile"),
      OnboardingStep(2, "Connect Repo", "Connect your Git repository", "git-merge", false, "Connect Repo"),
      OnboardingStep(3, "Configure Settings", "Customize your workspace settings", "sliders", false, "Configure"),
      OnboardingStep(4, "Run First Analysis", "Analyze your first code snippet", "play-circle", false, "Analyze Now") ]
  }

  // ---------------------------------------------------------------------
  // Onboarding steps

  function ToggleOne(s: OnboardingStep, id: int): OnboardingStep {
    if s.id == id then s.(isCompleted := !s.isCompleted) else s
  }

  /** `toggleStep(id)` on a list: every step with that id flips, nothing else
      changes. */
  function Toggled(steps: seq<OnboardingStep>, id: int): (r: seq<OnboardingStep>)
    ensures |r| == |steps|
    ensures forall i :: 0 <= i < |steps| ==> r[i].(isCompleted := steps[i].isCompleted) == steps[i]
    ensures forall i :: 0 <= i < |steps| ==> (r[i].isCompleted != steps[i].isCompleted <==> steps[i].id == id)
  {
    seq(|steps|, i requires 0 <= i < |steps| => ToggleOne(steps[i], id))
  }

  /** Toggling the same id twice restores the list. */
  lemma ToggleTwice(steps: seq<OnboardingStep>, id: int)
    ensures Toggled(Toggled(steps, id), id) == steps
  {
    var r := Toggled(Toggled(steps, id), id);
    forall i | 0 <= i < |steps| ensures r[i] == steps[i] {
      assert r[i] == ToggleOne(ToggleOne(steps[i], id), id);
    }
  }

  /** Toggling an id no step carries changes nothing. */
  lemma ToggleAbsent(steps: seq<OnboardingStep>, id: int)
    requires forall i :: 0 <= i < |steps| ==> steps[i].id != id
    ensures Toggled(steps, id) == steps
  {
  }

  /** `skipOnboarding` on a list: every step completed, nothing else changed. */
  function Skipped(steps: seq<OnboardingStep>): (r: seq<OnboardingStep>)
    ensures |r| == |steps|
    ensures forall i :: 0 <= i < |steps| ==> r[i].isCompleted && r[i].(isCompleted := steps[i].isCompleted) == steps[i]
  {
    seq(|steps|, i requires 0 <= i < |steps| => steps[i].(isCompleted := true))
  }

  /** Skipping twice is skipping once. */
  lemma SkipIdempotent(steps: seq<OnboardingStep>)
    ensures Skipped(Skipped(steps)) == Skipped(steps)
  {
  }

  /** The first-time flag asks for a reset when it is missing or "true". */
  predicate IsFirstTime(flag: Option<Stored>) {
    flag.None? || flag == Some(Text("true"))
  }

  /** The steps after the mount effect: the stored steps when they parse, the
      template when they do not, the current steps when none are stored; and
      the template whenever the first-time flag asks for it. */
  function LoadedSteps(stored: Option<Stored>, flag: Option<Stored>, current: seq<OnboardingStep>): (r: seq<OnboardingStep>)
    ensures IsFirstTime(flag) ==> r == OnboardingTemplate()
    ensures !IsFirstTime(flag) && IsTruthy(stored) && stored.value.StepsJson? ==> r == stored.value.steps
    ensures !IsFirstTime(flag) && IsTruthy(stored) && !stored.value.StepsJson? ==> r == OnboardingTemplate()
    ensures !IsFirstTime(flag) && !IsTruthy(stored) ==> r == current
  {
    if IsFirstTime(flag) then OnboardingTemplate()
    else if IsTruthy(stored) then ParseSteps(stored.value).GetOr(OnboardingTemplate())
    else current
  }

  // ---------------------------------------------------------------------
  // Metrics

  predicate StatusIs(r: ReviewItem, value: string) {
    r.status == Some(value)
  }

  /** The total of the reviews' scores, added from the first to the last. */
  function SumScores(reviews: seq<ReviewItem>): int
    decreases |reviews|
  {
    if reviews == [] then 0 else SumScores(reviews[..|reviews| - 1]) + GetReviewScore(reviews[|reviews| - 1])
  }

  /** `Math.round(sum / n)`: the integer m with m <= sum/n + 1/2 < m + 1,
      stated after multiplying through by 2n. */
  function RoundedMean(sum: int, n: nat): (m: int)
    requires n > 0
    ensures m * (2 * n) <= 2 * sum + n < (m + 1) * (2 * n)
  {
    (2 * sum + n) / (2 * n)
  }

  /** Only one integer meets that characterisation. */
  lemma RoundedMeanUnique(sum: int, n: nat, k: int)
    requires n > 0
    requires k * (2 * n) <= 2 * sum + n < (k + 1) * (2 * n)
    ensures k == RoundedMean(sum, n)
  {
    var m := RoundedMean(sum, n);
    if k < m {
      MulMonotone(k + 1, m, 2 * n);
    } else if m < k {
      MulMonotone(m + 1, k, 2 * n);
    }
  }

  lemma MulMonotone(a: int, b: int, c: nat)
    requires a <= b
    ensures a * c <= b * c
  {
  }

  lemma MulCancel(a: int, b: int, c: nat)
    requires a * c < b * c
    ensures a < b
  {
    if b <= a {
      MulMonotone(b, a, c);
    }
  }

  /** A sum between lo*n and hi*n has its rounded mean between lo and hi. */
  lemma RoundedMeanWithin(sum: int, n: nat, lo: int, hi: int)
    requires n > 0 && lo * n <= sum <= hi * n
    ensures lo <= RoundedMean(sum, n) <= hi
  {
    var m := RoundedMean(sum, n);
    assert m * (2 * n) < (hi + 1) * (2 * n);
    MulCancel(m, hi + 1, 2 * n);
    assert lo * (2 * n) < (m + 1) * (2 * n);
    MulCancel(lo, m + 1, 2 * n);
  }

  datatype DashboardMetrics = DashboardMetrics(totalReviews: nat, completed: nat, analyzing: nat,
                                               error: nat, avgScore: int)

  /** `metrics`: counts by `status` against the upper-case ReviewStatus
      values, and the rounded mean score, 0 for no reviews. */
  function Metrics(reviews: seq<ReviewItem>): (m: DashboardMetrics)
    ensures m.totalReviews == |reviews|
    ensures m.completed + m.analyzing + m.error <= m.totalReviews
    ensures m.completed == Count(reviews, x => StatusIs(x, STATUS_COMPLETED))
    ensures m.analyzing == Count(reviews, x => StatusIs(x, STATUS_ANALYZING))
    ensures m.error == Count(reviews, x => StatusIs(x, STATUS_ERROR))
    ensures |reviews| == 0 ==> m.avgScore == 0
    ensures |reviews| > 0 ==> m.avgScore == RoundedMean(SumScores(reviews), |reviews|)
  {
    DisjointCounts(reviews, x => StatusIs(x, STATUS_COMPLETED), x => StatusIs(x, STATUS_ANALYZING),
                   x => StatusIs(x, STATUS_ERROR));
    DashboardMetrics(
      |reviews|,
      Count(reviews, x => StatusIs(x, STATUS_COMPLETED)),
      Count(reviews, x => StatusIs(x, STATUS_ANALYZING)),
      Count(reviews, x => StatusIs(x, STATUS_ERROR)),
      if |reviews| > 0 then RoundedMean(SumScores(reviews), |reviews|) else 0)
  }

  predicate ScoresWithin(reviews: seq<ReviewItem>, lo: int, hi: int) {
    forall i :: 0 <= i < |reviews| ==> lo <= GetReviewScore(reviews[i]) <= hi
  }

  lemma {:induction false} SumScoresWithin(reviews: seq<ReviewItem>, lo: int, hi: int)
    requires ScoresWithin(reviews, lo, hi)
    ensures lo * |reviews| <= SumScores(reviews) <= hi * |reviews|
    decreases |reviews|
  {
    if reviews != [] {
      var init := reviews[..|reviews| - 1];
      assert ScoresWithin(init, lo, hi) by {
        forall i | 0 <= i < |init| ensures lo <= GetReviewScore(init[i]) <= hi {
          assert init[i] == reviews[i];
        }
      }
      SumScoresWithin(init, lo, hi);
      assert lo * |reviews| == lo * |init| + lo;
      assert hi * |reviews| == hi * |init| + hi;
    }
  }

  /** When every score lies in [lo, hi], so does the average. */
  lemma AverageWithin(reviews: seq<ReviewItem>, lo: int, hi: int)
    requires ScoresWithin(reviews, lo, hi) && lo <= hi
    ensures lo <= 0 <= hi ==> lo <= Metrics(reviews).avgScore <= hi
    ensures |reviews| > 0 ==> lo <= Metrics(reviews).avgScore <= hi
  {
    if |reviews| > 0 {
      SumScoresWithin(reviews, lo, hi);
      RoundedMeanWithin(SumScores(reviews), |reviews|, lo, hi);
    }
  }

  /** Two reviews scoring 80 and 90 average 85; 80 and 81 round up to 81. */
  lemma AverageExamples()
    ensures var a := ScoredItem(80);
      var b := ScoredItem(90);
      var c := ScoredItem(81);
      Metrics([a, b]).avgScore == 85 && Metrics([a, c]).avgScore == 81
  {
    var a := ScoredItem(80);
    var b := ScoredItem(90);
    var c := ScoredItem(81);
    assert [a, b][..1] == [a] && [a, c][..1] == [a];
    assert [a][..0] == [];
    assert SumScores([a]) == 80;
    assert SumScores([a, b]) == 170;
    assert SumScores([a, c]) == 161;
  }

  // ---------------------------------------------------------------------
  // Activity rows

  /** ReviewStatus to RepoStatus: COMPLETED and ANALYZING have their own
      display value; every other status, a missing one included, is "Failed". */
  function RepoStatusOf(status: Option<string>): (s: string)
    ensures status == Some(STATUS_COMPLETED) ==> s == REPO_COMPLETED
    ensures status == Some(STATUS_ANALYZING) ==> s == REPO_IN_PROGRESS
    ensures status != Some(STATUS_COMPLETED) && status != Some(STATUS_ANALYZING) ==> s == REPO_FAILED
  {
    if status == Some(STATUS_COMPLETED) then REPO_COMPLETED
    else if status == Some(STATUS_ANALYZING) then REPO_IN_PROGRESS
    else REPO_FAILED
  }

  /** The row for the idx-th review; `today` is the date part of the clock's
      ISO reading. */
  function ActivityRow(r: ReviewItem, idx: nat, today: string): (a: Activity)
    ensures a.id == Or(r.createdAt, NatToString(idx))
    ensures a.name == Some(Or(r.title, UNTITLED)) && Truthy(a.name)
    ensures a.status == RepoStatusOf(r.status)
    ensures a.date == Or(r.createdAt, today)
    ensures a.issuesCount == Some(GetReviewScore(r))
  {
    Activity(Or(r.createdAt, NatToString(idx)), Some(Or(r.title, UNTITLED)), RepoStatusOf(r.status),
             Or(r.createdAt, today), Some(GetReviewScore(r)))
  }

  /** `activityData`: one row per review, in order. */
  function ActivityData(reviews: seq<ReviewItem>, today: nat -> string): (rows: seq<Activity>)
    ensures |rows| == |reviews|
    ensures forall i :: 0 <= i < |reviews| ==> rows[i] == ActivityRow(reviews[i], i, today(i))
  {
    seq(|reviews|, i requires 0 <= i < |reviews| => ActivityRow(reviews[i], i, today(i)))
  }

  /** Every row's status is one of the three RepoStatus values. */
  lemma ActivityStatusKnown(reviews: seq<ReviewItem>, today: nat -> string, i: nat)
    requires i < |reviews|
    ensures var s := ActivityData(reviews, today)[i].status;
      s == REPO_COMPLETED || s == REPO_IN_PROGRESS || s == REPO_FAILED
  {
  }

  // ---------------------------------------------------------------------
  // The page's state

  class DashboardPage {
    var steps: seq<OnboardingStep>
    var reviews: seq<ReviewItem>

    constructor ()
      ensures steps == OnboardingTemplate() && reviews == []
    {
      steps := OnboardingTemplate();
      reviews := [];
    }

    /** The mount effect: history and steps from storage, then the first-time
        reset, which also clears the flag. */
    method Load(store: LocalStorage)
      modifies this, store
      ensures reviews == LoadHistory(old(store.GetItem(HISTORY_KEY)), old(reviews))
      ensures steps == LoadedSteps(old(store.GetItem(STEPS_KEY)), old(store.GetItem(FIRST_TIME_KEY)), old(steps))
      ensures IsFirstTime(old(store.GetItem(FIRST_TIME_KEY))) ==>
                store.entries == old(store.entries)[FIRST_TIME_KEY := Text("false")]
      ensures !IsFirstTime(old(store.GetItem(FIRST_TIME_KEY))) ==> store.entries == old(store.entries)
      ensures !IsFirstTime(store.GetItem(FIRST_TIME_KEY))
    {
      var storedReviews := store.GetItem(HISTORY_KEY);
      if IsTruthy(storedReviews) {
        var parsed := ParseReviews(storedReviews.value);
        reviews := if parsed.Some? then parsed.value else [];
      }
      var storedSteps := store.GetItem(STEPS_KEY);
      if IsTruthy(storedSteps) {
        var parsed := ParseSteps(storedSteps.value);
        steps := if parsed.Some? then parsed.value else OnboardingTemplate();
      }
      var firstTime := store.GetItem(FIRST_TIME_KEY);
      if firstTime.None? || firstTime == Some(Text("true")) {
        steps := OnboardingTemplate();
        store.SetItem(FIRST_TIME_KEY, Text("false"));
      }
    }

    /** `toggleStep(id)`: the shown steps and the stored steps are the toggled list. */
    method ToggleStep(store: LocalStorage, id: int)
      modifies this, store
      ensures steps == Toggled(old(steps), id) && reviews == old(reviews)
      ensures store.entries == old(store.entries)[STEPS_KEY := StepsJson(steps)]
    {
      var updated := Toggled(steps, id);
      store.SetItem(STEPS_KEY, StepsJson(updated));
      steps := updated;
    }

    /** `skipOnboarding`: every step completed, shown and stored. */
    method SkipOnboarding(store: LocalStorage)
      modifies this, store
      ensures steps == Skipped(old(steps)) && reviews == old(reviews)
      ensures store.entries == old(store.entries)[STEPS_KEY := StepsJson(steps)]
    {
      var skipped := Skipped(steps);
      steps := skipped;
      store.SetItem(STEPS_KEY, StepsJson(skipped));
    }
  }
}
