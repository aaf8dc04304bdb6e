/** The state the five resource pages under src/pages/ keep alike (Versions.tsx,
    Events.tsx, Locations.tsx, Themes.tsx, Repertoires.tsx): the loaded rows and
    count, the error banner, the create/edit dialog with its form record, the
    confirm-gated delete, and the pagination and filter controls. What differs
    between the pages is chosen by the page's `Kind`. Every API call's outcome
    and `window.confirm` are inputs. */
module ResourcePage {
  import opened Js
  import opened Wrappers
  import FormDialog
  import Pages
  import VersionsPage
  import EventsPage
  import LocationsPage
  import ThemesPage
  import RepertoiresPage

  datatype Kind = Versions | Events | Locations | Themes | Repertoires

  /** The record `handleCreate` puts in the form. */
  function CreateDefaults(kind: Kind): Record {
    match kind
    case Versions => VersionsPage.CreateDefaults()
    case Events => EventsPage.CreateDefaults()
    case Locations => LocationsPage.CreateDefaults()
    case Themes => ThemesPage.CreateDefaults()
    case Repertoires => RepertoiresPage.CreateDefaults()
  }

  /** The record `handleEdit` puts in the form: the row itself (`{ ...row }`) except on the
      versions and events pages. */
  function EditForm(kind: Kind, row: Record): (form: Result<Record>)
    ensures kind in {Locations, Themes, Repertoires} ==> form == Ok(row)
    ensures kind != Versions ==> form.Ok?
  {
    match kind
    case Versions => VersionsPage.EditForm(row)
    case Events => Ok(EventsPage.EditForm(row))
    case _ => Ok(row)
  }

  /** The body `handleSave` sends: the form itself on the versions and themes pages. */
  function Payload(kind: Kind, form: Record): (payload: Record)
    ensures kind in {Versions, Themes} ==> payload == form
  {
    match kind
    case Versions => form
    case Events => EventsPage.Payload(form)
    case Locations => LocationsPage.Payload(form)
    case Themes => form
    case Repertoires => RepertoiresPage.Payload(form)
  }

  /** The payload keeps every key of the form (and may add some). */
  lemma PayloadKeepsKeys(kind: Kind, form: Record)
    ensures form.Keys <= Payload(kind, form).Keys
  {
  }

  /** The banners `loadData`, `handleDelete` and `handleSave` show on failure. */
  function LoadError(kind: Kind): string {
    match kind
    case Versions => "Error al cargar las versiones"
    case Events => "Error al cargar los datos"
    case Locations => "Error al cargar las ubicaciones"
    case Themes => "Error al cargar los temas"
    case Repertoires => "Error al cargar los repertorios"
  }

  function DeleteError(kind: Kind): string {
    match kind
    case Versions => "Error al eliminar la versión"
    case Events => "Error al eliminar el evento"
    case Locations => "Error al eliminar la ubicación"
    case Themes => "Error al eliminar el tema"
    case Repertoires => "Error al eliminar el repertorio"
  }

  function SaveError(kind: Kind): string {
    match kind
    case Versions => "Error al guardar la versión"
    case Events => "Error al guardar el evento"
    case Locations => "Error al guardar la ubicación"
    case Themes => "Error al guardar el tema"
    case Repertoires => "Error al guardar el repertorio"
  }

  /** No two banners of one page are the same, so the banner tells which step failed. */
  lemma ErrorsDistinct(kind: Kind)
    ensures LoadError(kind) != DeleteError(kind) && LoadError(kind) != SaveError(kind) && DeleteError(kind) != SaveError(kind)
  {
  }

  class ResourcePage {
    const kind: Kind
    var rows: seq<Record>
    var totalCount: int
    /** The lists loaded beside the rows for select options (themes on the versions page,
        locations and repertoires on the events page). */
    var themes: seq<Record>
    var locations: seq<Record>
    var repertoires: seq<Record>
    var loading: bool
    var error: Option<string>
    var dialogOpen: bool
    var editing: Option<Record>
    var formData: Record
    var saving: bool
    var page: nat
    var rowsPerPage: nat
    /** The versions page's filters; `''` is no filter. */
    var selectedTheme: Value
    var selectedType: Value

    /** The initial state: loading, no error, the dialog closed with an empty form, the first
        page of 10 rows, no filters. */
    constructor (kind: Kind)
      ensures this.kind == kind && rows == [] && totalCount == 0 && themes == [] && locations == [] && repertoires == []
      ensures loading && error.None? && !dialogOpen && editing.None? && formData == map[] && !saving
      ensures page == 0 && rowsPerPage == 10 && selectedTheme == Str("") && selectedType == Str("")
    {
      this.kind := kind;
      rows, totalCount, themes, locations, repertoires := [], 0, [], [], [];
      loading, error := true, None;
      dialogOpen, editing, formData, saving := false, None, map[], false;
      page, rowsPerPage, selectedTheme, selectedType := 0, 10, Str(""), Str("");
    }

    /** The loaded data as a whole. */
    function Listing(): (seq<Record>, int, seq<Record>, seq<Record>, seq<Record>, bool)
      reads this
    {
      (rows, totalCount, themes, locations, repertoires, loading)
    }

    /** The dialog as a whole. */
    function Dialog(): (bool, Option<Record>, Record, bool)
      reads this
    {
      (dialogOpen, editing, formData, saving)
    }

    /** The pagination and filter controls. */
    function Controls(): (nat, nat, Value, Value)
      reads this
    {
      (page, rowsPerPage, selectedTheme, selectedType)
    }

    /** `loadData` given the page's normalised responses: on success the rows, the count and the
        lists loaded beside them replace the old ones; on failure the page's banner is set and
        the old data stays. Loading ends either way. */
    method LoadData(loaded: Result<Pages.Loaded>)
      modifies this
      ensures !loading
      ensures loaded.Ok? ==> rows == loaded.value.rows && totalCount == loaded.value.totalCount && error == old(error)
      ensures loaded.Ok? ==>
        themes == loaded.value.themes.GetOr(old(themes))
        && locations == loaded.value.locations.GetOr(old(locations))
        && repertoires == loaded.value.repertoires.GetOr(old(repertoires))
      ensures loaded.Err? ==>
        rows == old(rows) && totalCount == old(totalCount) && themes == old(themes)
        && locations == old(locations) && repertoires == old(repertoires) && error == Some(LoadError(kind))
      ensures Dialog() == old(Dialog()) && Controls() == old(Controls())
    {
      loading := true;
      if loaded.Ok? {
        var l := loaded.value;
        rows, totalCount := l.rows, l.totalCount;
        themes := l.themes.GetOr(themes);
        locations := l.locations.GetOr(locations);
        repertoires := l.repertoires.GetOr(repertoires);
      } else {
        error := Some(LoadError(kind));
      }
      loading := false;
    }

    /** `handleCreate`: nothing is being edited, the form holds the page's defaults, the dialog opens. */
    method HandleCreate()
      modifies this
      ensures editing.None? && formData == CreateDefaults(kind) && dialogOpen && saving == old(saving)
      ensures Listing() == old(Listing()) && Controls() == old(Controls()) && error == old(error)
    {
      editing := None;
      formData := CreateDefaults(kind);
      dialogOpen := true;
    }

    /** `handleEdit`: the row is being edited, the form holds the page's edit record, the dialog
        opens. Where building that record throws (a version whose theme is `null`), only the row
        is recorded as being edited. */
    method HandleEdit(row: Record)
      modifies this
      ensures editing == Some(row) && saving == old(saving)
      ensures EditForm(kind, row).Ok? ==> formData == EditForm(kind, row).value && dialogOpen
      ensures EditForm(kind, row).Err? ==> formData == old(formData) && dialogOpen == old(dialogOpen)
      ensures Listing() == old(Listing()) && Controls() == old(Controls()) && error == old(error)
    {
      editing := Some(row);
      var form := EditForm(kind, row);
      if form.Ok? {
        formData := form.value;
        dialogOpen := true;
      }
    }

    /** `handleDelete`: when the confirmation is declined nothing happens and nothing is requested.
        Otherwise the row's id is sent; a failed call sets the page's banner. The reload after a
        success is a separate `LoadData`. */
    method HandleDelete(row: Record, confirmed: bool, deleted: bool) returns (requested: Option<Value>)
      modifies this
      ensures !confirmed ==> requested.None? && error == old(error)
      ensures confirmed ==> requested == Some(Get(row, "id"))
      ensures confirmed && deleted ==> error == old(error)
      ensures confirmed && !deleted ==> error == Some(DeleteError(kind))
      ensures Listing() == old(Listing()) && Dialog() == old(Dialog()) && Controls() == old(Controls())
    {
      if !confirmed {
        return None;
      }
      requested := Some(Get(row, "id"));
      if !deleted {
        error := Some(DeleteError(kind));
      }
    }

    /** `handleSave`: update of the edited row's id, or create, with the page's payload. The dialog
        closes only when the call succeeds; a failure sets the page's banner and keeps the dialog
        and the form. Saving is over at the end either way. */
    method HandleSave(saved: bool) returns (call: Pages.SaveCall)
      modifies this
      ensures old(editing).Some? ==> call == Pages.Update(Get(old(editing).value, "id"), Payload(kind, old(formData)))
      ensures old(editing).None? ==> call == Pages.Create(Payload(kind, old(formData)))
      ensures saved ==> !dialogOpen && error == old(error)
      ensures !saved ==> dialogOpen == old(dialogOpen) && error == Some(SaveError(kind))
      ensures !saving && editing == old(editing) && formData == old(formData)
      ensures Listing() == old(Listing()) && Controls() == old(Controls())
    {
      saving := true;
      var payload := Payload(kind, formData);
      if editing.Some? {
        call := Pages.Update(Get(editing.value, "id"), payload);
      } else {
        call := Pages.Create(payload);
      }
      if saved {
        dialogOpen := false;
      } else {
        error := Some(SaveError(kind));
      }
      saving := false;
    }

    /** `handleFormChange(key, value)`: only that key of the form changes. */
    method HandleFormChange(key: string, value: Value)
      modifies this
      ensures formData == Pages.FormChange(old(formData), key, value)
      ensures dialogOpen == old(dialogOpen) && editing == old(editing) && saving == old(saving)
      ensures Listing() == old(Listing()) && Controls() == old(Controls()) && error == old(error)
    {
      formData := formData[key := value];
    }

    /** The dialog's `onClose`. */
    method CloseDialog()
      modifies this
      ensures !dialogOpen && editing == old(editing) && formData == old(formData) && saving == old(saving)
      ensures Listing() == old(Listing()) && Controls() == old(Controls()) && error == old(error)
    {
      dialogOpen := false;
    }

    /** The banner's `onClose`. */
    method DismissError()
      modifies this
      ensures error.None?
      ensures Listing() == old(Listing()) && Dialog() == old(Dialog()) && Controls() == old(Controls())
    {
      error := None;
    }

    /** The table's `onPageChange` and `onRowsPerPageChange`; each change reloads. */
    method SetPage(p: nat)
      modifies this
      ensures page == p && rowsPerPage == old(rowsPerPage) && selectedTheme == old(selectedTheme) && selectedType == old(selectedType)
      ensures Listing() == old(Listing()) && Dialog() == old(Dialog()) && error == old(error)
    {
      page := p;
    }

    method SetRowsPerPage(n: nat)
      modifies this
      ensures rowsPerPage == n && page == old(page) && selectedTheme == old(selectedTheme) && selectedType == old(selectedType)
      ensures Listing() == old(Listing()) && Dialog() == old(Dialog()) && error == old(error)
    {
      rowsPerPage := n;
    }

    /** The versions page's two filter selects; each change reloads. */
    method SelectTheme(v: Value)
      modifies this
      ensures selectedTheme == v && page == old(page) && rowsPerPage == old(rowsPerPage) && selectedType == old(selectedType)
      ensures Listing() == old(Listing()) && Dialog() == old(Dialog()) && error == old(error)
    {
      selectedTheme := v;
    }

    method SelectType(v: Value)
      modifies this
      ensures selectedType == v && page == old(page) && rowsPerPage == old(rowsPerPage) && selectedTheme == old(selectedTheme)
      ensures Listing() == old(Listing()) && Dialog() == old(Dialog()) && error == old(error)
    {
      selectedType := v;
    }

    /** The fields the dialog gets: the page's fields with the loaded lists as options. */
    function Fields(): (fields: seq<FormDialog.FormField>)
      reads this
      ensures kind == Versions ==> fields == VersionsPage.FieldsWithOptions(themes)
      ensures kind == Events ==> fields == EventsPage.FieldsWithOptions(locations, repertoires)
      ensures kind == Locations ==> fields == LocationsPage.LocationFields
      ensures kind == Themes ==> fields == ThemesPage.ThemeFields
      ensures kind == Repertoires ==> fields == RepertoiresPage.RepertoireFields
    {
      match kind
      case Versions => VersionsPage.FieldsWithOptions(themes)
      case Events => EventsPage.FieldsWithOptions(locations, repertoires)
      case Locations => LocationsPage.LocationFields
      case Themes => ThemesPage.ThemeFields
      case Repertoires => RepertoiresPage.RepertoireFields
    }

    /** The dialog's title is the edit one exactly while a row is being edited. */
    function Editing(): (isEditing: bool)
      reads this
      ensures isEditing <==> editing.Some?
    {
      editing.Some?
    }
  }
}
