/**
  The filter bar: whether any filter is active (which decides whether the
  Clear Filters button is shown) and the values each select offers. The
  filtering of the list by these values is not part of this model.
 */
module TaskFilters {
  import opened TaskTypes
  import UseTasks

  /** The values the filter bar is rendered with. */
  datatype FilterState = FilterState(
    searchQuery: string,
    statusFilter: string,
    priorityFilter: string,
    categoryFilter: string,
    sortBy: UseTasks.SortKey)

  /** A non-empty search or a facet other than "all". */
  predicate HasActiveFilters(f: FilterState) {
    f.searchQuery != "" || f.statusFilter != "all" || f.priorityFilter != "all" || f.categoryFilter != "all"
  }

  /** The filter bar with every filter reset and the sort order kept. */
  function Cleared(f: FilterState): (c: FilterState)
    ensures c.sortBy == f.sortBy
  {
    f.(searchQuery := "", statusFilter := "all", priorityFilter := "all", categoryFilter := "all")
  }

  /** Whether the header renders the Clear Filters button. */
  function ShowsClearFilters(f: FilterState): (shown: bool)
    ensures shown <==> Cleared(f) != f
  {
    HasActiveFilters(f)
  }

  /** Filters are active exactly when resetting them changes something; a reset bar is inactive. */
  lemma ActiveIffNotCleared(f: FilterState)
    ensures HasActiveFilters(f) <==> Cleared(f) != f
    ensures !HasActiveFilters(Cleared(f)) && Cleared(Cleared(f)) == Cleared(f)
  {
  }

  const StatusFilterOptions: seq<string> := ["all", "todo", "in-progress", "done"]
  const PriorityFilterOptions: seq<string> := ["all", "low", "medium", "high"]
  const CategoryFilterOptions: seq<string> := ["all", "Work", "Personal", "Health", "Education"]
  const SortOptions: seq<string> := ["dueDate", "priority", "status"]

  /** The status and priority selects offer "all" and exactly the names of the task's values. */
  lemma FacetOptionsAreTaskValues()
    ensures StatusFilterOptions == ["all"] + StatusNames
    ensures PriorityFilterOptions == ["all"] + PriorityNames
    ensures forall s: Status :: StatusName(s) in StatusFilterOptions
    ensures forall p: Priority :: PriorityName(p) in PriorityFilterOptions
    ensures forall o :: o in StatusFilterOptions && o != "all" ==> ParseStatus(o).Some?
    ensures forall o :: o in PriorityFilterOptions && o != "all" ==> ParsePriority(o).Some?
  {
  }

  function SortKeyName(k: UseTasks.SortKey): (name: string)
    ensures name in SortOptions
  {
    match k
    case ByDueDate => "dueDate"
    case ByPriority => "priority"
    case ByStatus => "status"
  }

  /** The value the sort select hands to `onSortByChange`. */
  function ParseSortKey(name: string): (r: Option<UseTasks.SortKey>)
    ensures r.Some? <==> name in SortOptions
    ensures r.Some? ==> SortKeyName(r.value) == name
  {
    if name == "dueDate" then Some(UseTasks.ByDueDate)
    else if name == "priority" then Some(UseTasks.ByPriority)
    else if name == "status" then Some(UseTasks.ByStatus)
    else None
  }

  /** The sort select offers every sort key once, the default one first. */
  lemma SortKeyNameRoundTrip(k: UseTasks.SortKey)
    ensures ParseSortKey(SortKeyName(k)) == Some(k)
    ensures SortOptions[0] == SortKeyName(UseTasks.DefaultSortKey)
  {
  }

  /**
    The category select does not offer the form's categories: "Shopping",
    "Learning" and "Other" are categories a task can have that no option other
    than "all" names, and "Education" is offered but is not a default category.
   */
  lemma CategoryOptionsDifferFromDefaults()
    ensures forall c :: c in ["Shopping", "Learning", "Other"] ==> c in DefaultCategories
    ensures forall o, c :: o in CategoryFilterOptions && o != "all" && c in ["Shopping", "Learning", "Other"] ==> o != c
    ensures "Education" in CategoryFilterOptions && "Education" !in DefaultCategories
  {
  }
}
