# Code review front end: history, metrics, onboarding and editor logic in Dafny

This project models the logic of a React front end for an AI code-review
service. The pages keep a history of reviews in browser local storage under
the key `reviewHistory`; the model covers:

- the two writers of that history: the review page's `saveToHistory`, which
  prepends the backend's sub-reviews and keeps 50, and the analysis panel's
  effect, which prepends one combined record with no cap;
- its readers: the history page's load, search, counts and delete; the
  dashboard's metrics, rounded average score and activity rows; the
  quality chart's series and trend; and the activity table's search and
  status classes;
- the onboarding checklist (toggle, skip, first-time reset) and the guided
  tour: where its popup and arrow are placed, and its open / close / next /
  previous / key-handling state machine;
- the code editor's extension guess, Tab insertion, line numbers and submit
  condition.

One module per source file (`Utils`, `Review`, `AnalysisPanel`,
`HistoryPage`, `Dashboard`, `QualityChart`, `ActivityTable`, `Onboarding`,
`CodeEditor`), plus:

- `Types`: the records;
- `Storage`: local storage as a class over a map from key to stored value;
- `JsValues`, `JsStrings`, `JsArrays`: the JavaScript semantics the code
  relies on (`||` defaults, `toLowerCase`, `includes`, `split`, `join`,
  `trim`, `substring`'s clamping, `filter`, `splice(i, 1)` with negative
  indices);
- `HistoryFlows`: facts about the writers and readers together.

Component state that the source updates in place is a class:
`LocalStorage`, `HistoryView`, `DashboardPage`, `ReviewPage`, `Tour`,
`Editor`. The pure computations are functions, proved against their
partners as lemmas. A stored value is either the JSON of a list (kept as
that list) or some other text, which `JSON.parse` does not turn into a
list. Clock readings (`Date.now()`, `toLocaleString()`, `toISOString()`)
are parameters.

Where the code is inconsistent with itself, the model follows the code:

- the analysis panel prepends without the 50-entry cap, so the history can
  grow past 50 (`HistoryFlows.BothWritersLength`,
  `HistoryFlows.PanelSavesUnbounded`);
- the review page and the analysis panel parse the stored history
  unguarded: a corrupt value makes them write nothing (and the review page
  shows the parse error) instead of falling back to an empty list;
- the dashboard compares `status` with the upper-case values `COMPLETED`,
  `ANALYZING`, `ERROR`, while the panel writes `"Completed"` and the review
  page writes no status, so neither writer's records count as completed
  there (`HistoryFlows.PanelRecordShownFailed`,
  `HistoryFlows.ReviewEntryAsRead`).

## Model

| member | source | states |
|---|---|---|
| Utils.GetReviewScore | utils.ts:4-11 | the first sub-review's score when `result.reviews` is non-empty and that score is present; 0 when there is no result, no list, an empty list or no score |
| Utils.ScoreIgnoresLaterSubReviews | utils.ts:6-8 | replacing every sub-review after the first leaves the score unchanged |
| Utils.NoResultScoresZero | utils.ts:6-10 | a record without `result` scores 0 |
| Storage.HistoryOrEmpty | src/pages/Review.tsx:14-15 | an absent or empty stored value stands for `[]`; any other value is parsed, which may fail |
| Storage.LoadHistory | src/pages/HistoryPage.tsx:78-87 | with a stored value the list becomes the parsed list, or `[]` when parsing fails; with none it keeps its current value |
| Storage.LocalStorage.SetItem | src/pages/HistoryPage.tsx:91 | `setItem` overwrites exactly one key; reading it back gives the new value |
| Review.MapReview | src/pages/Review.tsx:17-24 | each field takes the sub-review's value when truthy, else its default (`Code Review {idx+1}`, "No description available", the submitted code, "ANALYZING"); the id is the clock reading, a dash, idx; no status, result, language or date is written |
| Review.MappedReviews | src/pages/Review.tsx:17-24 | one mapped entry per sub-review, in the same order, the i-th mapped at index i |
| Review.SavedHistory | src/pages/Review.tsx:26-27 | the written list has length min(50, n + k); the mapped batch comes first in its order, then a prefix of the old history in its order |
| Review.MappedFieldsPresent | src/pages/Review.tsx:19-22 | every mapped entry has a non-empty id, title, description and type |
| Review.BatchIdsDistinct | src/pages/Review.tsx:18 | two entries of one batch never share an id, whatever the clock reads for each |
| Review.SaveToHistory | src/pages/Review.tsx:13-28 | the key becomes the saved history over the parsed old list; when the stored value does not parse, nothing is written and the result is false |
| Review.ReviewPage.SubmitCode | src/pages/Review.tsx:30-61 | no token: error "User not logged in", nothing stored; a failed request: its error text, nothing stored; a reply: the result shown, and the history saved only when it has `reviews`; loading is off at the end in every case |
| AnalysisPanel.ReviewItems | src/components/AnalysisPanel.tsx:58 | the listed items are the result's sub-reviews, or none without a result or list |
| AnalysisPanel.DescriptionParts | src/components/AnalysisPanel.tsx:68-74 | one part per sub-review, the i-th built from sub-review i with number i+1 |
| AnalysisPanel.CombinedDescriptionPart | src/components/AnalysisPanel.tsx:68-75 | sub-review i's whole part occurs in the combined description at the offset after the i earlier parts and their blank-line separators |
| AnalysisPanel.DescriptionPartHeader | src/components/AnalysisPanel.tsx:71 | each part starts with `{i+1}. [{type}] ` |
| AnalysisPanel.EmptyDescription | src/components/AnalysisPanel.tsx:68-75 | no sub-reviews give the empty description |
| AnalysisPanel.ReviewLanguage | src/components/AnalysisPanel.tsx:77 | the first sub-review's language when it is non-empty, else "javascript"; never empty |
| AnalysisPanel.CombinedReview | src/components/AnalysisPanel.tsx:79-88 | title `AI Code Review ({language})`, type and status both "Completed", empty code, the whole result and the creation time; its score is the first sub-review's |
| AnalysisPanel.WithCombined | src/components/AnalysisPanel.tsx:90 | the new history is the combined record followed by the old history unchanged, one longer, with no cap |
| AnalysisPanel.SaveCombinedReview | src/components/AnalysisPanel.tsx:61-92 | with no result, a result without a `reviews` list (where the source's `map` throws), or a stored history that does not parse, nothing is written; otherwise the key holds the combined record prepended to the old list |
| HistoryPage.FilterReviews | src/pages/HistoryPage.tsx:94-98 | the kept reviews are exactly those whose lower-cased title or description contains the lower-cased term, each as often as in the history, in history order |
| HistoryPage.EmptySearchKeepsAll | src/pages/HistoryPage.tsx:94-98 | an empty term keeps every review |
| HistoryPage.SearchIgnoresTermCase | src/pages/HistoryPage.tsx:96-97 | lower-casing the term first changes nothing |
| HistoryPage.Metrics | src/pages/HistoryPage.tsx:100-106 | total is the length; each count is the number of records whose `type` equals that status; the three counts sum to at most the total |
| HistoryPage.HistoryView.Load | src/pages/HistoryPage.tsx:78-87 | the list becomes what `LoadHistory` gives for the stored value |
| HistoryPage.HistoryView.SaveReviews | src/pages/HistoryPage.tsx:89-92 | the list shown and the list stored are the same, and loading the stored one gives it back |
| HistoryPage.HistoryView.SetSearchTerm | src/pages/HistoryPage.tsx:133 | the search box's text becomes the term and the reviews are untouched |
| HistoryPage.HistoryView.HandleDelete | src/pages/HistoryPage.tsx:108-112 | an index in range removes exactly that element and keeps the rest in order; an index past the end changes nothing; a negative one removes from the end, as JavaScript's `splice` does (the page only passes non-negative positions); the result is stored |
| HistoryPage.DeleteUsesFilteredPosition | src/pages/HistoryPage.tsx:215 | with the search "beta" over [alpha, beta], the first card shows beta but deleting index 0 removes alpha; the corrected delete removes beta |
| HistoryPage.DeleteCard | src/pages/HistoryPage.tsx:108-112 | deleting card k of the filtered list removes exactly the review that card shows (the copy with k shown cards before it) and keeps every other review in its order: one fewer review, and the filtered list without card k; k past the filtered list changes nothing |
| HistoryPage.HistoryView.HandleDeleteCard | src/pages/HistoryPage.tsx:108-112 | the shown cards lose exactly card k; the full list loses exactly that card's review, the rest in order; k past the cards changes nothing; the result is stored |
| Dashboard.OnboardingTemplate | src/pages/Dashboard.tsx:21-54 | four steps, ids 1 to 4, none completed |
| Dashboard.Toggled | src/pages/Dashboard.tsx:104-108 | same length; a step's completion flips exactly when its id matches; no other field changes |
| Dashboard.ToggleTwice | src/pages/Dashboard.tsx:106-108 | toggling an id twice restores the list |
| Dashboard.ToggleAbsent | src/pages/Dashboard.tsx:106-108 | toggling an id no step has changes nothing |
| Dashboard.Skipped | src/pages/Dashboard.tsx:115 | every step completed, same length, no other field changed |
| Dashboard.SkipIdempotent | src/pages/Dashboard.tsx:115 | skipping twice is skipping once |
| Dashboard.LoadedSteps | src/pages/Dashboard.tsx:88-101 | a missing or "true" first-time flag gives the template; otherwise parsed stored steps, the template when they do not parse, or the current steps when none are stored |
| Dashboard.DashboardPage.Load | src/pages/Dashboard.tsx:75-102 | reviews and steps as loaded; on a first visit the flag is set to "false" and nothing else is written; afterwards the flag never asks for a reset |
| Dashboard.DashboardPage.ToggleStep | src/pages/Dashboard.tsx:104-112 | the steps shown and stored are the toggled list |
| Dashboard.DashboardPage.SkipOnboarding | src/pages/Dashboard.tsx:114-118 | the steps shown and stored are the skipped list |
| Dashboard.RoundedMean | src/pages/Dashboard.tsx:129-134 | `Math.round(sum / n)`: the m with m ≤ sum/n + 1/2 < m + 1, stated in integers |
| Dashboard.RoundedMeanUnique | src/pages/Dashboard.tsx:130-133 | only one integer meets that characterisation |
| Dashboard.Metrics | src/pages/Dashboard.tsx:120-136 | counts by `status` against the upper-case values, summing to at most the total; the average is the rounded mean score, and 0 with no reviews (no division) |
| Dashboard.SumScoresWithin | src/pages/Dashboard.tsx:131 | scores within [lo, hi] sum to between lo·n and hi·n |
| Dashboard.AverageWithin | src/pages/Dashboard.tsx:129-134 | when every score lies in [lo, hi], so does the average |
| Dashboard.AverageExamples | src/pages/Dashboard.tsx:129-134 | scores 80 and 90 average 85; 80 and 81 round up to 81 |
| Dashboard.RepoStatusOf | src/pages/Dashboard.tsx:141-146 | COMPLETED gives "Completed", ANALYZING gives "In Progress", anything else, missing included, gives "Failed" |
| Dashboard.ActivityRow | src/pages/Dashboard.tsx:138-149 | id and date from `createdAt`, else the index and today's date; name the title or "Untitled Review", never empty; issues the score |
| Dashboard.ActivityData | src/pages/Dashboard.tsx:138-149 | one row per review, in order |
| Dashboard.ActivityStatusKnown | src/pages/Dashboard.tsx:141-146 | every row's status is one of the three display values |
| QualityChart.ChartData | src/components/QualityChart.tsx:19-22 | one point per review, in order, labelled `Review {idx+1}`, valued at its score |
| QualityChart.PointNamesDistinct | src/components/QualityChart.tsx:20 | no two points share a label |
| QualityChart.Latest | src/components/QualityChart.tsx:24-26 | the last point's value, 0 with no points |
| QualityChart.Prev | src/components/QualityChart.tsx:27-30 | the second-to-last value, or the latest with fewer than two points |
| QualityChart.Diff | src/components/QualityChart.tsx:31 | the last value minus the one before; 0 with fewer than two points |
| QualityChart.DiffAfterAppend | src/components/QualityChart.tsx:24-31 | appending a review makes the trend its score minus the previous latest |
| QualityChart.DiffLabel | src/components/QualityChart.tsx:50 | starts with '+' exactly when the trend is ≥ 0, and '-' exactly when it is negative, followed by its magnitude's digits |
| QualityChart.CountLabel | src/components/QualityChart.tsx:54 | "Last ", digits, " Reviews", where the digits parse back to the number of reviews |
| QualityChart.TrendExamples | src/components/QualityChart.tsx:19-31 | scores 70 then 85 give latest 85 and trend 15; one review gives trend 0, shown "+0" |
| ActivityTable.FilteredActivity | src/components/ActivityTable.tsx:21-23 | the kept rows are exactly the named rows whose lower-cased name contains the lower-cased term, each as often as before, in order |
| ActivityTable.EmptyTermKeepsNamed | src/components/ActivityTable.tsx:22 | a missing or empty term keeps exactly the rows with a name |
| ActivityTable.EmptyTermKeepsAll | src/components/ActivityTable.tsx:21-23 | with every row named, a missing or empty term keeps them all |
| ActivityTable.StatusClassesDistinct | src/components/ActivityTable.tsx:25-49 | the three statuses have distinct style and dot classes; any other status gets the gray pair, which none of the three gets |
| ActivityTable.IssuesText | src/components/ActivityTable.tsx:102 | "-" exactly when the count is null, else the count's digits |
| Onboarding.ClampTop | src/components/Onboarding.tsx:133 | the top is at least 12, at most vh − 172 when that is at least 12, and unchanged when already in range |
| Onboarding.ComputePopupPosition | src/components/Onboarding.tsx:90-139 | the placement equals the closed form for the side chosen: right, left, below, above or centred |
| Onboarding.PlacementBounds | src/components/Onboarding.tsx:101-133 | the popup's top is ≥ 12, ≤ vh − 172 when vh ≥ 184, and the rotation is 180, 0, −90 or 90 |
| Onboarding.PlacementHorizontal | src/components/Onboarding.tsx:103-131 | beside the target the popup lies in [12, vw − 12]; above, below or centred its left is ≥ 12 and the arrow points at the target's centre |
| Onboarding.RotationShowsSide | src/components/Onboarding.tsx:101-130 | rotation 0 exactly on the left, −90 exactly below, 90 exactly above, 180 exactly on the right or centred |
| Onboarding.ClampStep | src/components/Onboarding.tsx:53 | the step index lies in [0, count − 1], is 0 for no steps, keeps an index in range and takes the last step for one past it |
| Onboarding.Tour.constructor | src/components/Onboarding.tsx:24-35 | the tour starts closed at step 0 with no target, popup or arrow |
| Onboarding.Tour.GotoStep | src/components/Onboarding.tsx:52-78 | the clamped index becomes current; once the element is found, its rectangle and the computed popup and arrow are shown |
| Onboarding.Tour.OpenTour | src/components/Onboarding.tsx:39-43 | the tour is open at the clamped start step |
| Onboarding.Tour.CloseTour | src/components/Onboarding.tsx:45-50 | the tour is closed with no target, popup or arrow; the step stays |
| Onboarding.Tour.Next | src/components/Onboarding.tsx:80-83 | before the last step: one step on, with the popup and arrow placed beside the new target once it is found, kept as they were until then; at the last step the tour closes with no target, popup or arrow |
| Onboarding.Tour.Prev | src/components/Onboarding.tsx:85-87 | after the first step: one step back, with the popup and arrow placed beside the new target once found, kept until then; at the first step nothing changes |
| Onboarding.Tour.OnResize | src/components/Onboarding.tsx:153-158 | while open, the current step is placed again: a found target gets the popup and arrow computed for the new viewport; while closed, or until the target is found, nothing changes |
| Onboarding.Tour.HandleKey | src/components/Onboarding.tsx:142-151 | ignored while closed; Escape closes and clears target, popup and arrow, keeping the step; ArrowRight is next and ArrowLeft is prev, each placing the popup beside the new step's target once found; ArrowLeft at the first step keeps the step, target, popup and arrow; other keys change nothing |
| CodeEditor.SearchFrom | src/components/CodeEditor.tsx:23-28 | a regex test is true exactly when a match starts at some position |
| CodeEditor.LiteralSearch | src/components/CodeEditor.tsx:23-27 | a literal pattern matches exactly when the text contains it |
| CodeEditor.PhpPatternMatchesAnyPhp | src/components/CodeEditor.tsx:28 | the PHP pattern as written matches exactly the texts containing "php" |
| CodeEditor.DetectFileExtension | src/components/CodeEditor.tsx:20-31 | the first matching pattern decides: "js" exactly when the trimmed code matches the JavaScript pattern; "py", "java" and "cpp" exactly when it matches that pattern and none before it; "php" exactly when it matches none of those four and contains "php"; "txt" exactly when neither |
| CodeEditor.PhpInsideWord | src/components/CodeEditor.tsx:28 | "graphpaper" is detected as PHP as written and as text with the tag matched literally |
| CodeEditor.DetectFileExtensionTag | src/components/CodeEditor.tsx:20-31 | the same order with the tag matched literally: "php" exactly when none of the four earlier patterns matches and the trimmed code contains "<?php"; "txt" exactly when none matches and it does not; every other result equals the as-written detection, and "php" here implies "php" as written |
| CodeEditor.TabInsert | src/components/CodeEditor.tsx:46 | the code before the selection, two spaces, the code after it; length shrinks by the selection and grows by 2 |
| CodeEditor.LineNumbers | src/components/CodeEditor.tsx:35-38 | the numbers 1 to k where k is the number of newlines plus one |
| CodeEditor.SubmitDisabled | src/components/CodeEditor.tsx:101 | disabled exactly when an analysis runs or every character of the code is whitespace |
| CodeEditor.Editor.HandleKeyDown | src/components/CodeEditor.tsx:40-55 | Tab replaces the selection by two spaces, puts the caret after them and keeps the text after the selection; other keys change nothing; the line numbers stay those of the code |
| CodeEditor.Editor.Change | src/components/CodeEditor.tsx:35-38 | the new code's line numbers are recomputed |
| HistoryFlows.BothWritersLength | src/components/AnalysisPanel.tsx:90-91 | a review page save then a panel save leaves min(50, n + k) + 1 entries, which is 51 once n + k ≥ 50 |
| HistoryFlows.PanelSavesUnbounded | src/components/AnalysisPanel.tsx:90-91 | t panel saves lengthen the history by exactly t |
| HistoryFlows.PanelRecordShownFailed | src/pages/Dashboard.tsx:141-146 | the panel's record never counts as completed on the dashboard and is listed as "Failed" |
| HistoryFlows.ReviewEntryAsRead | src/pages/Review.tsx:17-24 | review page entries are listed as "Failed" and score 0; one without a type counts as analyzing on the history page |
| HistoryFlows.EmptySearchShowsAllActivity | src/components/ActivityTable.tsx:21-23 | with a missing or empty term the table shows every activity row |
| HistoryFlows.ReviewOnlyHistoryAveragesZero | src/pages/Dashboard.tsx:129-134 | a history of review page entries only averages 0 |

## Left out

- The tour's polling loop (`attemptFind`), `scrollIntoView`, `getBoundingClientRect`, listener registration and body-overflow toggling are DOM mechanics; the target rectangle (or its absence) and the viewport size are inputs.
- The review page and the analysis panel writing the history at the same time: each write is one sequential operation, and their interleaving is not modelled.
- Clock readings (`Date.now()`, `toLocaleString()`, `toISOString()`) are parameters; timers (the toast, the caret's `setTimeout`) are not modelled.
- Stored JSON that parses to something other than a list is not modelled: a stored value is either a list or text that fails to parse.
- `toLowerCase` and `trim` are modelled over ASCII letters and ASCII white space only.
- Scores are integers: `NaN`, fractional scores and floating-point rounding of the average are not modelled.
- The backend request is not modelled beyond its outcome, a reply body or an error, taken as a parameter.
- The dashboard's user-name greeting and the login toast message are display only.
- ActivityTable rows that are themselves null (`item?`) are not modelled; rows are records whose name may be missing.
- The history page's splitting of descriptions on fenced blocks and blank lines is render only.
- Utils.GetReviewScore: a first sub-review that is itself null is not modelled; sub-reviews are records whose score may be missing.
- The regexes of `detectFileExtension` are modelled with a small backtracking matcher over literals, an optional character and repeated `\s` / `\w` classes, which is all these patterns use.
- Onboarding.Tour.OpenTour: the animation frame the source schedules is taken to run at once, so the call ends with the step already clamped.
- Backend-only pages, presentational components and routing are not part of this model.

## Findings

| source | as written | input that shows it | evidently intended | confidence | as-written member | corrected member |
|---|---|---|---|---|---|---|
| src/pages/HistoryPage.tsx:215 | the delete button passes the card's position in the filtered list, and `handleDelete` splices that position out of the full list | history [alpha, beta], search "beta": the only card shows beta, and deleting it removes alpha | delete the review the card shows | high, not executed | HistoryPage.DeleteUsesFilteredPosition | HistoryPage.DeleteCard |
| src/components/CodeEditor.tsx:28 | `/<?php/` makes the `<` optional, so it matches any "php" | "graphpaper" is detected as PHP | match the PHP opening tag "<?php" | medium, not executed | CodeEditor.PhpInsideWord | CodeEditor.DetectFileExtensionTag |
