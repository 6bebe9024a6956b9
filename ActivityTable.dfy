/** The activity table (src/components/ActivityTable.tsx): the name search
    and the class names each repository status is drawn with. */
module ActivityTable {
  import opened JsValues
  import opened JsStrings
  import opened JsArrays
  import opened Types

  /** The lower-cased search term; a missing one searches for "". */
  function SearchText(term: Option<string>): string {
    Lower(term.GetOr(""))
  }

  /** A row is kept when it has a name whose lower-cased form contains the
      lower-cased term; a row without a name never is. */
  predicate MatchesName(a: Activity, term: Option<string>) {
    a.name.Some? && Includes(Lower(a.name.value), SearchText(term))
  }

  /** `filteredActivity`: the matching rows, in order, none dropped. */
  function FilteredActivity(acts: seq<Activity>, term: Option<string>): (r: seq<Activity>)
    ensures forall i :: 0 <= i < |r| ==> r[i].name.Some? && MatchesName(r[i], term)
    ensures forall x :: MatchesName(x, term) ==> multiset(r)[x] == multiset(acts)[x]
    ensures forall x :: !MatchesName(x, term) ==> multiset(r)[x] == 0
    ensures IsSubsequence(r, acts)
  {
    FilterKeepsExactly(acts, x => MatchesName(x, term));
    Filter(acts, x => MatchesName(x, term))
  }

  predicate HasName(a: Activity) {
    a.name.Some?
  }

  /** A missing or empty term keeps exactly the rows that have a name. */
  lemma EmptyTermKeepsNamed(acts: seq<Activity>, term: Option<string>)
    requires term.None? || term == Some("")
    ensures FilteredActivity(acts, term) == Filter(acts, HasName)
  {
    assert SearchText(term) == "";
    FilterSameTest(acts, x => MatchesName(x, term), HasName);
  }

  /** With every row named, a missing or empty term keeps them all. */
  lemma EmptyTermKeepsAll(acts: seq<Activity>, term: Option<string>)
    requires term.None? || term == Some("")
    requires forall i :: 0 <= i < |acts| ==> acts[i].name.Some?
    ensures FilteredActivity(acts, term) == acts
  {
    EmptyTermKeepsNamed(acts, term);
    FilterAll(acts, HasName);
  }

  /** `getStatusStyle`. */
  function StatusStyle(status: string): string {
    if status == REPO_COMPLETED then "bg-success/10 text-success"
    else if status == REPO_IN_PROGRESS then "bg-secondary/10 text-secondary"
    else if status == REPO_FAILED then "bg-danger/10 text-danger"
    else "bg-gray-500/10 text-gray-400"
  }

  /** `getStatusDot`. */
  function StatusDot(status: string): string {
    if status == REPO_COMPLETED then "bg-success"
    else if status == REPO_IN_PROGRESS then "bg-secondary"
    else if status == REPO_FAILED then "bg-danger"
    else "bg-gray-400"
  }

  predicate IsRepoStatus(status: string) {
    status == REPO_COMPLETED || status == REPO_IN_PROGRESS || status == REPO_FAILED
  }

  /** Each RepoStatus value has a style and a dot of its own, and any other
      status gets the gray pair, which no RepoStatus value gets. */
  lemma StatusClassesDistinct(s: string, t: string)
    ensures IsRepoStatus(s) && IsRepoStatus(t) && s != t ==> StatusStyle(s) != StatusStyle(t) && StatusDot(s) != StatusDot(t)
    ensures IsRepoStatus(s) ==> StatusStyle(s) != StatusStyle("") && StatusDot(s) != StatusDot("")
    ensures !IsRepoStatus(s) ==> StatusStyle(s) == "bg-gray-500/10 text-gray-400" && StatusDot(s) == "bg-gray-400"
  {
  }

  /** The issues cell: the count, or "-" when it is null. */
  function IssuesText(count: Option<int>): (s: string)
    ensures count.None? <==> s == "-"
    ensures count.Some? ==> s == IntToString(count.value)
  {
    if count.Some? then IntToString(count.value) else "-"
  }
}
