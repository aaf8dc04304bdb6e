/** The themes page (src/pages/Themes.tsx): its form fields, the record
    `handleCreate` starts from, its columns, and what its `loadData` stores. */
module ThemesPage {
  import opened Js
  import opened Wrappers
  import FormDialog
  import Pages
  import Api

  const ThemeFields: seq<FormDialog.FormField> := [
    FormDialog.FormField("title", "Título", FormDialog.Text, true, [], None, None, false),
    FormDialog.FormField("artist", "Artista", FormDialog.Text, true, [], None, None, false),
    FormDialog.FormField("tonality", "Tonalidad", FormDialog.Text, false, [], None, None, false),
    FormDialog.FormField("description", "Descripción", FormDialog.Textarea, false, [], None, None, false)]

  /** `handleCreate`'s record: the four fields of the form, all empty. */
  function CreateDefaults(): (form: Record)
    ensures form.Keys == {"title", "artist", "tonality", "description"}
    ensures forall k :: k in form ==> form[k] == Str("")
  {
    map["title" := Str(""), "artist" := Str(""), "tonality" := Str(""), "description" := Str("")]
  }

  /** Every field of the form has an entry in the record it starts from. */
  lemma DefaultsCoverFields()
    ensures forall i :: 0 <= i < |ThemeFields| ==> ThemeFields[i].key in CreateDefaults()
  {
  }

  /** The tonality column: the value as a chip, `-` when it is falsy. */
  function TonalityCell(value: Value): (cell: Pages.Cell)
    ensures !Truthy(value) <==> cell == Pages.Text("-")
    ensures Truthy(value) ==> cell == Pages.Chip(ToJsString(value), "default")
  {
    if Truthy(value) then Pages.Chip(ToJsString(value), "default") else Pages.Text("-")
  }

  /** The versions column: the count chip, primary when positive. */
  function VersionCountCell(value: Value): Pages.Cell
  {
    Pages.CountChip(value, "primary")
  }

  /** `loadData`: the rows and `data.length`, or `results || []` and `count || 0`. */
  function Load(data: Value): (r: Result<Pages.Loaded>)
    ensures r.Ok? <==> Pages.ListRows(data).Ok? && Pages.ListCount(data).Ok?
    ensures r.Ok? ==> r.value.rows == Pages.ListRows(data).value && r.value.totalCount == Pages.ListCount(data).value
    ensures r.Ok? ==> r.value.themes.None? && r.value.locations.None? && r.value.repertoires.None?
  {
    match Pages.ListRows(data)
    case Err(e) => Err(e)
    case Ok(rows) =>
      match Pages.ListCount(data)
      case Err(e) => Err(e)
      case Ok(count) => Ok(Pages.Loaded(rows, count, None, None, None))
  }

  /** `getThemes` already unwraps `results`, so for a paginated envelope `{ results, count }`
      the page stores the rows of that page and counts them, whatever total `count` says. */
  lemma CountIsRowsAfterUnwrap(response: Value)
    requires response.Obj? && Get(response.fields, "results").Arr?
    requires Load(Api.ListPayload(response).value).Ok?
    ensures Load(Api.ListPayload(response).value).value.rows == Pages.AsRecords(Get(response.fields, "results")).value
    ensures Load(Api.ListPayload(response).value).value.totalCount == |Get(response.fields, "results").items|
  {
  }
}
