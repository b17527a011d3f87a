/**
  The bulk-actions toolbar: the tri-state select-all checkbox, the count
  label and whether the bulk controls are shown, derived from the number of
  selected tasks and the number of tasks.
 */
module BulkActionsToolbar {
  import opened TaskTypes
  import opened TaskActions
  import Strings
  import TaskReducer

  predicate IsAllSelected(selectedCount: nat, totalCount: nat) {
    selectedCount == totalCount && totalCount > 0
  }

  predicate IsIndeterminate(selectedCount: nat, totalCount: nat) {
    selectedCount > 0 && selectedCount < totalCount
  }

  /** What the toolbar renders. */
  datatype ToolbarView = ToolbarView(
    checked: bool,
    indeterminate: bool,
    countLabel: string,
    showBulkControls: bool)

  function CountLabel(selectedCount: nat, totalCount: nat): string {
    if selectedCount > 0
    then Strings.NatToString(selectedCount) + " of " + Strings.NatToString(totalCount) + " selected"
    else "Select all " + Strings.NatToString(totalCount) + " tasks"
  }

  /** The toolbar for the given counts; `None` is `return null`. */
  function Render(selectedCount: nat, totalCount: nat): (r: Option<ToolbarView>)
    ensures r.None? <==> totalCount == 0
    ensures r.Some? ==> (r.value.checked <==> selectedCount == totalCount)
    ensures r.Some? ==> (r.value.indeterminate <==> 0 < selectedCount < totalCount)
    ensures r.Some? ==> !(r.value.checked && r.value.indeterminate)
    ensures r.Some? ==> (r.value.showBulkControls <==> selectedCount > 0)
  {
    if totalCount == 0 then None
    else Some(ToolbarView(IsAllSelected(selectedCount, totalCount), IsIndeterminate(selectedCount, totalCount),
                          CountLabel(selectedCount, totalCount), selectedCount > 0))
  }

  /**
    A count of selected ids above the number of tasks, which the reducer's
    `SELECT_TASK` can produce, leaves the checkbox neither checked nor indeterminate.
   */
  lemma OverSelectionShowsNeither(selectedCount: nat, totalCount: nat)
    requires 0 < totalCount < selectedCount
    ensures var r := Render(selectedCount, totalCount);
      r.Some? && !r.value.checked && !r.value.indeterminate && r.value.showBulkControls
  {
  }

  /** The radix checkbox reports `true`, `false` or `'indeterminate'`. */
  datatype CheckedState = Checked | Unchecked | Mixed

  /** `onSelectAll(checked === true)`. */
  function SelectAllRequest(c: CheckedState): (selected: bool)
    ensures selected <==> c == Checked
  {
    c == Checked
  }

  /** Checking the box on a non-empty list selects every task and shows it checked. */
  lemma SelectAllShowsChecked(s: TaskState)
    requires |s.tasks| > 0
    ensures var sel := TaskReducer.ReduceSelectAllTasks(s, SelectAllRequest(Checked)).selectedTaskIds;
      && |sel| == |s.tasks|
      && Render(|sel|, |s.tasks|).Some? && Render(|sel|, |s.tasks|).value.checked
  {
  }

  /** Unchecking clears the selection: the bulk controls disappear and the label invites to select all. */
  lemma DeselectAllHidesControls(s: TaskState)
    requires |s.tasks| > 0
    ensures var sel := TaskReducer.ReduceSelectAllTasks(s, SelectAllRequest(Unchecked)).selectedTaskIds;
      var r := Render(|sel|, |s.tasks|);
      && r.Some? && !r.value.checked && !r.value.indeterminate && !r.value.showBulkControls
      && r.value.countLabel == "Select all " + Strings.NatToString(|s.tasks|) + " tasks"
  {
  }
}
