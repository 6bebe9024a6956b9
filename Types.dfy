/** The records the pages share (types.ts). Every field of a review record
    may be missing, because the stored history mixes records written by two
    different writers and the backend's sub-reviews; the field the source
    calls `type` is `reviewType` here. */
module Types {
  import opened JsValues

  /** A review record: a stored history entry or a backend sub-review. */
  datatype ReviewItem = ReviewItem(
    id: Option<string>,
    title: Option<string>,
    description: Option<string>,
    codeSuggestion: Option<string>,
    reviewType: Option<string>,
    status: Option<string>,
    language: Option<string>,
    code: Option<string>,
    result: Option<Analysis>,
    createdAt: Option<string>,
    timestamp: Option<string>,
    score: Option<int>)

  /** The backend's analysis result: `{ reviews: [...] }`. */
  datatype Analysis = Analysis(reviews: Option<seq<ReviewItem>>)

  /** A record with no fields set. */
  function EmptyItem(): ReviewItem {
    ReviewItem(None, None, None, None, None, None, None, None, None, None, None, None)
  }

  datatype OnboardingStep = OnboardingStep(
    id: int,
    title: string,
    description: string,
    iconName: string,
    isCompleted: bool,
    actionLabel: string)

  // The ReviewStatus enum: its values are upper-case strings.
  const STATUS_IDLE := "IDLE"
  const STATUS_ANALYZING := "ANALYZING"
  const STATUS_COMPLETED := "COMPLETED"
  const STATUS_ERROR := "ERROR"

  // The RepoStatus enum: its values are display strings.
  const REPO_COMPLETED := "Completed"
  const REPO_IN_PROGRESS := "In Progress"
  const REPO_FAILED := "Failed"

  /** A row of the activity table (RepositoryActivity). */
  datatype Activity = Activity(
    id: string,
    name: Option<string>,
    status: string,
    date: string,
    issuesCount: Option<int>)
}
