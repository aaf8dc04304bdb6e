/** The generic `DataTable` (src/components/common/DataTable.tsx): the values it
    computes from its props. Which handlers the caller passed is modelled by
    booleans; the rendered markup itself is left out. */
module DataTable {
  import opened Js
  import opened Wrappers
  import ListSort

  /** A row action as the table lists it: its caption (the button title) and its colour. */
  datatype Action = Action(caption: string, color: string)

  const ViewAction := Action("Ver", "info")
  const EditAction := Action("Editar", "primary")
  const DeleteAction := Action("Eliminar", "error")

  /** `handleSort(field)`: nothing without `onSort`; otherwise the direction asked for is
      descending exactly when `field` is the current sort field, currently ascending.
      `sortField` may be unset. */
  function HandleSort(hasOnSort: bool, sortField: Option<string>, sortDirection: ListSort.Direction, field: string)
    : (request: Option<(string, ListSort.Direction)>)
    ensures request.None? <==> !hasOnSort
    ensures request.Some? ==> request.value.0 == field
    ensures request.Some? ==>
      (request.value.1 == ListSort.Desc <==> sortField == Some(field) && sortDirection == ListSort.Asc)
  {
    if !hasOnSort then None
    else
      var newDirection := if sortField == Some(field) && sortDirection == ListSort.Asc then ListSort.Desc else ListSort.Asc;
      Some((field, newDirection))
  }

  /** With a sort field set, the request is the shared header toggle applied to the current state. */
  lemma HandleSortIsToggle(sortField: string, sortDirection: ListSort.Direction, field: string)
    ensures var r := ListSort.Toggle(ListSort.SortState(sortField, sortDirection), field);
      HandleSort(true, Some(sortField), sortDirection, field) == Some((r.field, r.direction))
  {
    if sortField == field {
      assert sortDirection.Flip() == ListSort.Desc <==> sortDirection == ListSort.Asc;
    }
  }

  /** A sortable header's label: active on the sort field, and pointing in the sort direction
      there (ascending everywhere else). Without `onSort` or for a column that is not sortable
      there is no sort label at all. */
  function HeaderSortLabel(sortable: bool, hasOnSort: bool, sortField: Option<string>, sortDirection: ListSort.Direction, key: string)
    : (sortLabel: Option<(bool, ListSort.Direction)>)
    ensures sortLabel.Some? <==> sortable && hasOnSort
    ensures sortLabel.Some? ==> (sortLabel.value.0 <==> sortField == Some(key))
    ensures sortLabel.Some? && sortField != Some(key) ==> sortLabel.value.1 == ListSort.Asc
    ensures sortLabel.Some? && sortField == Some(key) ==> sortLabel.value.1 == sortDirection
  {
    if sortable && hasOnSort then
      Some((sortField == Some(key), if sortField == Some(key) then sortDirection else ListSort.Asc))
    else None
  }

  /** The actions the table shows, assembled as `defaultActions` is: View, Edit and Delete,
      each only when its handler was given, pushed in that order, then the caller's actions. */
  method AssembleActions(onView: bool, onEdit: bool, onDelete: bool, actions: seq<Action>) returns (allActions: seq<Action>)
    ensures |allActions| == |actions| + (if onView then 1 else 0) + (if onEdit then 1 else 0) + (if onDelete then 1 else 0)
    ensures allActions[|allActions| - |actions|..] == actions
    ensures ViewAction in allActions[..|allActions| - |actions|] <==> onView
    ensures EditAction in allActions[..|allActions| - |actions|] <==> onEdit
    ensures DeleteAction in allActions[..|allActions| - |actions|] <==> onDelete
    ensures onView ==> allActions[0] == ViewAction
    ensures onDelete ==> allActions[|allActions| - |actions| - 1] == DeleteAction
    ensures onEdit ==> allActions[if onView then 1 else 0] == EditAction
  {
    var defaultActions: seq<Action> := [];
    if onView {
      defaultActions := defaultActions + [ViewAction];
    }
    if onEdit {
      defaultActions := defaultActions + [EditAction];
    }
    if onDelete {
      defaultActions := defaultActions + [DeleteAction];
    }
    allActions := defaultActions + actions;
    assert allActions[..|defaultActions|] == defaultActions;
    assert allActions[|defaultActions|..] == actions;
  }

  /** What the table body shows: the spinner while loading, else the error message when
      `error` is truthy, else the rows. */
  datatype View = Spinner | ErrorMessage(message: string) | Rows

  function Show(loading: bool, error: Option<string>): (v: View)
    ensures v == Spinner <==> loading
    ensures v.ErrorMessage? <==> !loading && error.Some? && error.value != ""
    ensures v.ErrorMessage? ==> v.message == error.value
    ensures v == Rows <==> !loading && (error.None? || error.value == "")
  {
    if loading then Spinner
    else if error.Some? && error.value != "" then ErrorMessage(error.value)
    else Rows
  }

  /** A column without a renderer shows `String(value || '')`: every falsy value shows as
      empty text, every truthy value as its `String` form. */
  function DefaultCell(value: Value): (text: string)
    ensures !Truthy(value) ==> text == ""
    ensures Truthy(value) ==> text == ToJsString(value)
  {
    ToJsString(Or(value, Str("")))
  }

  /** So the number 0 and `false` show as empty cells, unlike `1` and `true`. */
  lemma FalsyCellsAreEmpty()
    ensures DefaultCell(Num(0)) == "" && DefaultCell(Bool(false)) == "" && DefaultCell(Null) == ""
    ensures DefaultCell(Num(1)) == "1" && DefaultCell(Bool(true)) == "true"
  {
  }

  /** The Actions column exists exactly when there is at least one action. */
  function HasActionsColumn(allActions: seq<Action>): (shown: bool)
    ensures shown <==> |allActions| > 0
  {
    |allActions| > 0
  }

  /** Number of cells in the header row and in each data row. */
  function RowWidth(columns: nat, allActions: seq<Action>): nat {
    columns + if HasActionsColumn(allActions) then 1 else 0
  }

  /** The placeholder row shown for empty data: one cell spanning `columns.length`, plus one
      for the Actions column when there is one; there is no placeholder otherwise. */
  function PlaceholderColSpans(dataLength: nat, columns: nat, allActions: seq<Action>): (spans: seq<nat>)
    ensures dataLength > 0 ==> spans == []
    ensures dataLength == 0 ==> |spans| == 1
  {
    if dataLength == 0 then [columns + (if |allActions| > 0 then 1 else 0)] else []
  }

  /** The placeholder spans the whole header, actions column included, whatever was passed. */
  lemma PlaceholderSpansHeader(columns: nat, allActions: seq<Action>)
    ensures PlaceholderColSpans(0, columns, allActions)[0] == RowWidth(columns, allActions)
  {
  }

  /** The pagination `count`: `totalCount || data.length`, so a missing or zero total falls
      back to the rows given. */
  function PaginationCount(totalCount: Option<int>, dataLength: nat): (count: int)
    ensures totalCount.Some? && totalCount.value != 0 ==> count == totalCount.value
    ensures totalCount.None? || totalCount.value == 0 ==> count == dataLength
  {
    var total := if totalCount.Some? then Num(totalCount.value) else Undefined;
    match Or(total, Num(dataLength))
    case Num(n) => n
    case _ => dataLength
  }

  /** The pagination bar is shown exactly when a page or a rows-per-page handler is given. */
  function ShowsPagination(hasOnPageChange: bool, hasOnRowsPerPageChange: bool): (shown: bool)
    ensures shown <==> hasOnPageChange || hasOnRowsPerPageChange
  {
    hasOnPageChange || hasOnRowsPerPageChange
  }

  /** The Spanish label of the four known statuses. */
  function StatusLabels(): map<string, string> {
    map["DRAFT" := "Borrador", "CONFIRMED" := "Confirmado", "CANCELLED" := "Cancelado", "COMPLETED" := "Completado"]
  }

  /** The default colours of the four known statuses. */
  function DefaultColors(): map<string, string> {
    map["DRAFT" := "warning", "CONFIRMED" := "success", "CANCELLED" := "error", "COMPLETED" := "info"]
  }

  /** The default colours, overridden by the caller's `colorMap`. */
  function StatusColors(colorMap: map<string, string>): map<string, string> {
    DefaultColors() + colorMap
  }

  /** `formatStatus`: the chip's label and colour. An unknown status shows as itself; a status
      with no colour, or an empty one, gets `default`. */
  function FormatStatus(status: string, colorMap: map<string, string>): (chip: (string, string))
    ensures status in StatusLabels() ==> chip.0 == StatusLabels()[status] && chip.0 != status
    ensures status !in StatusLabels() ==> chip.0 == status
    ensures status in colorMap && colorMap[status] != "" ==> chip.1 == colorMap[status]
    ensures status in colorMap && colorMap[status] == "" ==> chip.1 == "default"
    ensures status !in colorMap && status in StatusLabels() ==> chip.1 == DefaultColors()[status] && chip.1 != "default"
    ensures status !in colorMap && status !in StatusLabels() ==> chip.1 == "default"
  {
    var labels, colors := StatusLabels(), StatusColors(colorMap);
    var text := if status in labels then Or(Str(labels[status]), Str(status)) else Str(status);
    var color := if status in colors then Or(Str(colors[status]), Str("default")) else Str("default");
    (text.s, color.s)
  }
}
