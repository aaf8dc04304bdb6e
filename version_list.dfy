/** `VersionList` (src/components/VersionList.tsx): the versions with their type
    tabs, the modal and delete-confirmation state, the delete and the duplicate
    request. Each API call's outcome is an input. */
module VersionList {
  import opened Wrappers
  import opened Types
  import Js
  import Json
  import Seqs
  import FormData
  import VersionTypes

  /** `filteredVersions`: every version under `all`, else those of the selected type. */
  function FilteredVersions(versions: seq<Version>, selectedType: string): (shown: seq<Version>)
    ensures |shown| == VersionTypes.TabCount(versions, selectedType)
    ensures selectedType == "all" ==> shown == versions
  {
    if selectedType == "all" then versions else Seqs.Filter(versions, VersionTypes.HasTypeCode(selectedType))
  }

  /** A version is listed exactly when it is loaded and `all` or its own type is selected. */
  lemma ShownIff(versions: seq<Version>, selectedType: string, v: Version)
    ensures v in FilteredVersions(versions, selectedType) <==>
      v in versions && (selectedType == "all" || v.vtype.Code() == selectedType)
  {
    if selectedType != "all" {
      Seqs.FilterMembership(versions, VersionTypes.HasTypeCode(selectedType), v);
    }
  }

  /** The filter of the local delete: every version but the deleted one. */
  function OtherId(id: int): Version -> bool {
    (v: Version) => v.id != id
  }

  /** The duplicate's title: `${version.title || `Versión ${version.id}`} (Copia)`. */
  function DuplicateTitle(v: Version): (title: string)
    ensures Js.EndsWith(title, " (Copia)")
    ensures v.title.Some? && v.title.value != "" ==> title == v.title.value + " (Copia)"
    ensures v.title.None? || v.title.value == "" ==> title == "Versión " + Js.IntToString(v.id) + " (Copia)"
  {
    var base := Js.Or(if v.title.Some? then Js.Str(v.title.value) else Js.Undefined, Js.Str("Versión " + Js.IntToString(v.id)));
    var title := Js.ToJsString(base) + " (Copia)";
    assert title[|title| - |" (Copia)"|..] == " (Copia)";
    title
  }

  /** The body `handleDuplicateVersion` sends, as the sequence of its parts. */
  function DuplicateBody(v: Version): seq<FormData.Part> {
    [FormData.TextPart("theme", Js.IntToString(v.theme)), FormData.TextPart("title", DuplicateTitle(v)),
     FormData.TextPart("type", v.vtype.Code()), FormData.TextPart("notes", if v.notes.Some? then v.notes.value else "")]
  }

  /** The duplicate body: the theme id, the marked title, the type code and the notes (empty
      when there are none), in that order and nothing else; no file is copied. */
  lemma DuplicateLayout(v: Version)
    ensures var parts := DuplicateBody(v);
      && FormData.Names(parts) == ["theme", "title", "type", "notes"]
      && (forall i :: 0 <= i < |parts| ==> parts[i].TextPart?)
      && Json.ParseInt(parts[0].text) == Some((v.theme, ""))
      && parts[1].text == DuplicateTitle(v)
      && parts[2].text == v.vtype.Code()
      && parts[3].text == (if v.notes.Some? then v.notes.value else "")
  {
    Json.IntRoundTrip(v.theme, "");
    assert Js.IntToString(v.theme) + "" == Js.IntToString(v.theme);
  }

  /** `handleDuplicateVersion`'s construction of the body: four text appends. */
  method DuplicateForm(v: Version) returns (parts: seq<FormData.Part>)
    ensures parts == DuplicateBody(v)
  {
    var form := new FormData.Form();
    form.AppendText("theme", Js.IntToString(v.theme));
    form.AppendText("title", DuplicateTitle(v));
    form.AppendText("type", v.vtype.Code());
    form.AppendText("notes", if v.notes.Some? then v.notes.value else "");
    parts := form.parts;
  }

  class VersionList {
    var versions: seq<Version>
    var themes: seq<Theme>
    var loading: bool
    var error: string
    var selectedType: string
    var showVersionModal: bool
    var editingVersion: Option<Version>
    var showDeleteConfirm: bool
    var versionToDelete: Option<Version>

    /** The initial state: loading, tab `all`, no modal and no confirmation open. */
    constructor ()
      ensures versions == [] && themes == [] && loading && error == "" && selectedType == "all"
      ensures !showVersionModal && editingVersion.None? && !showDeleteConfirm && versionToDelete.None?
    {
      versions, themes := [], [];
      loading, error, selectedType := true, "", "all";
      showVersionModal, editingVersion := false, None;
      showDeleteConfirm, versionToDelete := false, None;
    }

    /** `loadData`: both lists are requested together; they are stored only when both
        arrive, and otherwise the error is set. Loading ends either way. */
    method LoadData(versionsResponse: Result<seq<Version>>, themesResponse: Result<seq<Theme>>)
      modifies this
      ensures !loading
      ensures versionsResponse.Ok? && themesResponse.Ok? ==>
        versions == versionsResponse.value && themes == themesResponse.value && error == old(error)
      ensures versionsResponse.Err? || themesResponse.Err? ==>
        versions == old(versions) && themes == old(themes) && error == "Error al cargar los datos"
      ensures selectedType == old(selectedType) && showVersionModal == old(showVersionModal)
      ensures editingVersion == old(editingVersion) && showDeleteConfirm == old(showDeleteConfirm)
      ensures versionToDelete == old(versionToDelete)
    {
      loading := true;
      if versionsResponse.Ok? && themesResponse.Ok? {
        versions := versionsResponse.value;
        themes := themesResponse.value;
      } else {
        error := "Error al cargar los datos";
      }
      loading := false;
    }

    /** `handleCreateVersion`: the modal opens with nothing being edited. */
    method HandleCreateVersion()
      modifies this
      ensures editingVersion.None? && showVersionModal
      ensures versions == old(versions) && themes == old(themes) && loading == old(loading) && error == old(error)
      ensures selectedType == old(selectedType) && showDeleteConfirm == old(showDeleteConfirm)
      ensures versionToDelete == old(versionToDelete)
    {
      editingVersion := None;
      showVersionModal := true;
    }

    /** `handleEditVersion`: the modal opens on that version. */
    method HandleEditVersion(v: Version)
      modifies this
      ensures editingVersion == Some(v) && showVersionModal
      ensures versions == old(versions) && themes == old(themes) && loading == old(loading) && error == old(error)
      ensures selectedType == old(selectedType) && showDeleteConfirm == old(showDeleteConfirm)
      ensures versionToDelete == old(versionToDelete)
    {
      editingVersion := Some(v);
      showVersionModal := true;
    }

    /** `handleDeleteVersion`: the version becomes the target and the confirmation opens. */
    method HandleDeleteVersion(v: Version)
      modifies this
      ensures versionToDelete == Some(v) && showDeleteConfirm
      ensures versions == old(versions) && themes == old(themes) && loading == old(loading) && error == old(error)
      ensures selectedType == old(selectedType) && showVersionModal == old(showVersionModal)
      ensures editingVersion == old(editingVersion)
    {
      versionToDelete := Some(v);
      showDeleteConfirm := true;
    }

    /** `confirmDelete`: with no target nothing happens and nothing is requested. Otherwise the
        target's id is sent; when the call succeeds (`deleted`) exactly the versions with that id
        go, the confirmation closes and the target is cleared, and when it fails the error is set
        and the confirmation stays. */
    method ConfirmDelete(deleted: bool) returns (requested: Option<int>)
      modifies this
      ensures requested == (if old(versionToDelete).Some? then Some(old(versionToDelete).value.id) else None)
      ensures versions == (if requested.Some? && deleted then Seqs.Filter(old(versions), OtherId(requested.value)) else old(versions))
      ensures error == (if requested.Some? && !deleted then "Error al eliminar la versión" else old(error))
      ensures showDeleteConfirm == (if requested.Some? && deleted then false else old(showDeleteConfirm))
      ensures versionToDelete == (if requested.Some? && deleted then None else old(versionToDelete))
      ensures themes == old(themes) && loading == old(loading) && selectedType == old(selectedType)
      ensures showVersionModal == old(showVersionModal) && editingVersion == old(editingVersion)
    {
      requested := None;
      if versionToDelete.Some? {
        var id := versionToDelete.value.id;
        requested := Some(id);
        if deleted {
          versions := Seqs.Filter(versions, OtherId(id));
          showDeleteConfirm := false;
          versionToDelete := None;
        } else {
          error := "Error al eliminar la versión";
        }
      }
    }

    /** `handleDuplicateVersion`: the duplicate body is sent; a failed call sets the error.
        The reload that follows a success is a separate `LoadData`. */
    method HandleDuplicateVersion(v: Version, created: bool) returns (body: seq<FormData.Part>)
      modifies this
      ensures body == DuplicateBody(v)
      ensures error == (if created then old(error) else "Error al duplicar la versión")
      ensures versions == old(versions) && themes == old(themes) && loading == old(loading)
      ensures selectedType == old(selectedType) && showVersionModal == old(showVersionModal)
      ensures editingVersion == old(editingVersion) && showDeleteConfirm == old(showDeleteConfirm)
      ensures versionToDelete == old(versionToDelete)
    {
      body := DuplicateForm(v);
      if !created {
        error := "Error al duplicar la versión";
      }
    }

    /** Clicking a tab. */
    method SelectType(tab: string)
      modifies this
      ensures selectedType == tab
      ensures versions == old(versions) && themes == old(themes) && loading == old(loading) && error == old(error)
      ensures showVersionModal == old(showVersionModal) && editingVersion == old(editingVersion)
      ensures showDeleteConfirm == old(showDeleteConfirm) && versionToDelete == old(versionToDelete)
    {
      selectedType := tab;
    }

    /** The modal's `onClose`: the modal hides; the version it was editing stays recorded. */
    method CloseVersionModal()
      modifies this
      ensures !showVersionModal && editingVersion == old(editingVersion)
      ensures versions == old(versions) && themes == old(themes) && loading == old(loading) && error == old(error)
      ensures selectedType == old(selectedType)
      ensures showDeleteConfirm == old(showDeleteConfirm) && versionToDelete == old(versionToDelete)
    {
      showVersionModal := false;
    }

    /** The confirmation's `onCancel`: the confirmation hides but its target is not cleared. */
    method CancelDelete()
      modifies this
      ensures !showDeleteConfirm && versionToDelete == old(versionToDelete)
      ensures versions == old(versions) && themes == old(themes) && loading == old(loading) && error == old(error)
      ensures selectedType == old(selectedType)
      ensures showVersionModal == old(showVersionModal) && editingVersion == old(editingVersion)
    {
      showDeleteConfirm := false;
    }
  }

  /** The local delete removes exactly the versions with that id and keeps the others in order. */
  lemma DeleteRemovesExactly(versions: seq<Version>, id: int, v: Version)
    ensures v in Seqs.Filter(versions, OtherId(id)) <==> v in versions && v.id != id
    ensures |Seqs.Filter(versions, OtherId(id))| <= |versions|
  {
    Seqs.FilterMembership(versions, OtherId(id), v);
  }
}
