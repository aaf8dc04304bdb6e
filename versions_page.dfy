/** The versions page (src/pages/Versions.tsx): the theme and type filters of its
    `loadData`, its form fields with the theme options filled in, the records
    `handleCreate` and `handleEdit` start from, and its columns. */
module VersionsPage {
  import opened Js
  import opened Wrappers
  import FormDialog
  import Pages
  import Seqs

  const VersionFields: seq<FormDialog.FormField> := [
    FormDialog.FormField("title", "Título", FormDialog.Text, true, [], None, None, false),
    FormDialog.FormField("theme_id", "Tema", FormDialog.Select, true, [], None, None, false),
    FormDialog.FormField("version_type", "Tipo de Versión", FormDialog.Select, true, [
      FormDialog.SelectOption(Str("Standard"), "Standard"), FormDialog.SelectOption(Str("Ensamble"), "Ensamble"),
      FormDialog.SelectOption(Str("Dueto"), "Dueto"), FormDialog.SelectOption(Str("Grupo Reducido"), "Grupo Reducido")],
      None, None, false),
    FormDialog.FormField("notes", "Notas", FormDialog.Textarea, false, [], None, None, false)]

  /** A theme option: its id, labelled with its title. */
  function ThemeOption(theme: Record): FormDialog.SelectOption {
    FormDialog.SelectOption(Get(theme, "id"), ToJsString(Get(theme, "title")))
  }

  function ThemeOptions(themes: seq<Record>): (options: seq<FormDialog.SelectOption>)
    ensures |options| == |themes|
    ensures forall i :: 0 <= i < |themes| ==> options[i] == ThemeOption(themes[i])
  {
    seq(|themes|, i requires 0 <= i < |themes| => ThemeOption(themes[i]))
  }

  /** `fieldsWithOptions`: only the theme select gets the loaded themes as options. */
  function FieldsWithOptions(themes: seq<Record>): (fields: seq<FormDialog.FormField>)
    ensures |fields| == |VersionFields|
    ensures fields[1] == VersionFields[1].(options := ThemeOptions(themes))
    ensures forall i :: 0 <= i < |VersionFields| && i != 1 ==> fields[i] == VersionFields[i]
  {
    Pages.InjectOptions(VersionFields, "theme_id", ThemeOptions(themes))
  }

  /** `typeof v.theme === 'object' ? v.theme.id : v.theme_id`: the id of an embedded theme,
      else `theme_id`; a `null` theme is an object too and reading its id throws. */
  function ThemeIdOf(v: Record): (id: Result<Value>)
    ensures id.Err? <==> Get(v, "theme") == Null
    ensures Get(v, "theme").Obj? ==> id == Ok(Get(Get(v, "theme").fields, "id"))
    ensures !Get(v, "theme").Obj? && !Get(v, "theme").Arr? && Get(v, "theme") != Null ==> id == Ok(Get(v, "theme_id"))
  {
    match Get(v, "theme")
    case Null => Err("TypeError: cannot read 'id' of null")
    case Obj(fields) => Ok(Get(fields, "id"))
    case Arr(_) => Ok(Undefined)
    case _ => Ok(Get(v, "theme_id"))
  }

  function HasTheme(selectedTheme: Value): Record -> bool {
    (v: Record) => ThemeIdOf(v) == Ok(selectedTheme)
  }

  function HasType(selectedType: Value): Record -> bool {
    (v: Record) => Get(v, "version_type") == selectedType
  }

  /** Some row has a `null` theme, which makes the theme filter throw. */
  predicate SomeNullTheme(rows: seq<Record>) {
    exists i :: 0 <= i < |rows| && Get(rows[i], "theme") == Null
  }

  /** The filters of `loadData`: with a truthy theme the rows of that theme, then with a truthy
      type the rows of that type. */
  function FilterVersions(rows: seq<Record>, selectedTheme: Value, selectedType: Value): (r: Result<seq<Record>>)
    ensures r.Err? <==> Truthy(selectedTheme) && SomeNullTheme(rows)
    ensures r.Ok? ==> |r.value| <= |rows|
  {
    if Truthy(selectedTheme) && SomeNullTheme(rows) then Err("TypeError: cannot read 'id' of null")
    else
      var byTheme := if Truthy(selectedTheme) then Seqs.Filter(rows, HasTheme(selectedTheme)) else rows;
      var byType := if Truthy(selectedType) then Seqs.Filter(byTheme, HasType(selectedType)) else byTheme;
      Ok(byType)
  }

  /** A row is kept exactly when it is loaded, of the selected theme when one is selected, and of
      the selected type when one is selected. */
  lemma KeptIff(rows: seq<Record>, selectedTheme: Value, selectedType: Value, v: Record)
    requires FilterVersions(rows, selectedTheme, selectedType).Ok?
    ensures v in FilterVersions(rows, selectedTheme, selectedType).value <==>
      v in rows
      && (!Truthy(selectedTheme) || ThemeIdOf(v) == Ok(selectedTheme))
      && (!Truthy(selectedType) || Get(v, "version_type") == selectedType)
  {
    var byTheme := if Truthy(selectedTheme) then Seqs.Filter(rows, HasTheme(selectedTheme)) else rows;
    if Truthy(selectedTheme) {
      Seqs.FilterMembership(rows, HasTheme(selectedTheme), v);
    }
    if Truthy(selectedType) {
      Seqs.FilterMembership(byTheme, HasType(selectedType), v);
    }
  }

  /** With neither filter every row is kept, in order. */
  lemma NoFilterKeepsAll(rows: seq<Record>, selectedTheme: Value, selectedType: Value)
    requires !Truthy(selectedTheme) && !Truthy(selectedType)
    ensures FilterVersions(rows, selectedTheme, selectedType) == Ok(rows)
  {
  }

  /** `loadData`: versions and themes arrive together; the filtered versions are stored and
      counted, and the themes are kept for the options. */
  function Load(versionsData: Value, themesData: Value, selectedTheme: Value, selectedType: Value): (r: Result<Pages.Loaded>)
    ensures r.Ok? <==>
      (Pages.ListRows(versionsData).Ok? && Pages.ListRows(themesData).Ok?
       && FilterVersions(Pages.ListRows(versionsData).value, selectedTheme, selectedType).Ok?)
    ensures r.Ok? ==> r.value.rows == FilterVersions(Pages.ListRows(versionsData).value, selectedTheme, selectedType).value
    ensures r.Ok? ==> r.value.totalCount == |r.value.rows| && r.value.themes == Some(Pages.ListRows(themesData).value)
    ensures r.Ok? ==> r.value.locations.None? && r.value.repertoires.None?
  {
    match Pages.ListRows(versionsData)
    case Err(e) => Err(e)
    case Ok(rows) =>
      match FilterVersions(rows, selectedTheme, selectedType)
      case Err(e) => Err(e)
      case Ok(filtered) =>
        match Pages.ListRows(themesData)
        case Err(e) => Err(e)
        case Ok(themes) => Ok(Pages.Loaded(filtered, |filtered|, Some(themes), None, None))
  }

  /** `handleCreate`'s record. */
  function CreateDefaults(): (form: Record)
    ensures form.Keys == {"title", "theme_id", "version_type", "notes"}
    ensures form["version_type"] == Str("Standard")
    ensures form["title"] == Str("") && form["theme_id"] == Str("") && form["notes"] == Str("")
  {
    map["title" := Str(""), "theme_id" := Str(""), "version_type" := Str("Standard"), "notes" := Str("")]
  }

  /** `handleEdit`'s record: the version with `theme_id` taken from the embedded theme when there
      is one; a `null` theme throws. */
  function EditForm(row: Record): (form: Result<Record>)
    ensures form.Err? <==> Get(row, "theme") == Null
    ensures form.Ok? ==> form.value == row["theme_id" := ThemeIdOf(row).value]
    ensures form.Ok? && Get(row, "theme").Obj? ==> form.value["theme_id"] == Get(Get(row, "theme").fields, "id")
  {
    match ThemeIdOf(row)
    case Err(e) => Err(e)
    case Ok(id) => Ok(row["theme_id" := id])
  }

  /** The theme column: the embedded theme's title, `-` when there is no embedded theme. */
  function ThemeCell(value: Value): (shown: Value)
    ensures value.Obj? ==> shown == Get(value.fields, "title")
    ensures !value.Obj? && !value.Arr? ==> shown == Str("-")
  {
    match value
    case Obj(fields) => Get(fields, "title")
    case Arr(_) => Undefined
    case _ => Str("-")
  }

  /** The score-count column: the count chip, green when positive. */
  function SheetMusicCell(value: Value): Pages.Cell
  {
    Pages.CountChip(value, "success")
  }
}
