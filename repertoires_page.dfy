/** The repertoires page (src/pages/Repertoires.tsx): its form fields, the
    record `handleCreate` starts from, the fields its save payload forces, its
    columns, and what its `loadData` stores. */
module RepertoiresPage {
  import opened Js
  import opened Wrappers
  import FormDialog
  import Pages

  const RepertoireFields: seq<FormDialog.FormField> := [
    FormDialog.FormField("name", "Nombre", FormDialog.Text, true, [], None, None, false),
    FormDialog.FormField("description", "Descripción", FormDialog.Textarea, false, [], None, None, false),
    FormDialog.FormField("is_active", "Activo", FormDialog.Boolean, false, [], None, None, false)]

  /** `handleCreate`'s record: empty name and description, active. */
  function CreateDefaults(): (form: Record)
    ensures form.Keys == {"name", "description", "is_active"}
    ensures form["name"] == Str("") && form["description"] == Str("") && form["is_active"] == Bool(true)
  {
    map["name" := Str(""), "description" := Str(""), "is_active" := Bool(true)]
  }

  /** The save payload `{ ...formData, version_count: 0, versions: [] }`: the two are forced,
      whatever the form holds, and every other key is copied. */
  function Payload(form: Record): (payload: Record)
    ensures payload.Keys == form.Keys + {"version_count", "versions"}
    ensures payload["version_count"] == Num(0) && payload["versions"] == Arr([])
    ensures forall k :: k in form && k !in {"version_count", "versions"} ==> payload[k] == form[k]
  {
    form["version_count" := Num(0)]["versions" := Arr([])]
  }

  /** The description column: `value || '-'`. */
  function DescriptionCell(value: Value): (text: string)
    ensures !Truthy(value) ==> text == "-"
    ensures value.Str? && value.s != "" ==> text == value.s
  {
    ToJsString(Or(value, Str("-")))
  }

  /** The versions column: the count chip, green when positive (0 when missing). */
  function VersionCountCell(value: Value): Pages.Cell
  {
    Pages.CountChip(value, "success")
  }

  /** The status column: Activo in green exactly when `is_active` is truthy, else Inactivo. */
  function StatusCell(value: Value): (cell: Pages.Cell)
    ensures cell.Chip?
    ensures cell.caption == "Activo" <==> Truthy(value)
    ensures cell.caption == "Inactivo" <==> !Truthy(value)
    ensures cell.color == (if Truthy(value) then "success" else "default")
  {
    if Truthy(value) then Pages.Chip("Activo", "success") else Pages.Chip("Inactivo", "default")
  }

  /** `loadData`: as on the themes page. */
  function Load(data: Value): (r: Result<Pages.Loaded>)
    ensures r.Ok? <==> Pages.ListRows(data).Ok? && Pages.ListCount(data).Ok?
    ensures r.Ok? ==> r.value.rows == Pages.ListRows(data).value && r.value.totalCount == Pages.ListCount(data).value
    ensures r.Ok? ==> r.value.themes.None? && r.value.locations.None? && r.value.repertoires.None?
  {
    match Pages.ListRows(data)
    case Err(e) => Err(e)
    case Ok(rows) =>
      match Pages.ListCount(data)
      case Err(e) => Err(e)
      case Ok(count) => Ok(Pages.Loaded(rows, count, None, None, None))
  }
}
