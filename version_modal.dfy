/** `VersionModal` (src/components/VersionModal.tsx): the create/edit form for a
    version, its reset when opened, its field handlers and the multipart body
    `handleSubmit` sends. `Number(...)` is an abstract parser and each API call's
    outcome is an input. */
module VersionModal {
  import opened Wrappers
  import opened Types
  import Js
  import Json
  import FormData

  /** The three file inputs, by the form key they fill. */
  datatype FileField = ImageFile | AudioFile | MusFile {
    function Key(): string {
      match this
      case ImageFile => "image"
      case AudioFile => "audio_file"
      case MusFile => "mus_file"
    }
  }

  /** The request `handleSubmit` makes. */
  datatype SubmitCall = Create(body: seq<FormData.Part>) | Update(id: int, body: seq<FormData.Part>)

  /** The callbacks it invokes, in order. */
  datatype Callback = OnSuccess | OnClose

  /** A failed save carries the server's `detail`, if any. */
  datatype SaveOutcome = Saved | Failed(detail: Option<string>)

  /** The theme select's `Number(e.target.value) || ''`: a non-zero number selects that theme,
      anything else (0 included) selects none. */
  function SelectedTheme(text: string, number: string -> Option<int>): (theme: Option<int>)
    ensures theme.Some? <==> number(text).Some? && number(text).value != 0
    ensures theme.Some? ==> theme == number(text)
  {
    var n := if number(text).Some? then Js.Num(number(text).value) else Js.Undefined;
    match Js.Or(n, Js.Str(""))
    case Num(k) => Some(k)
    case _ => None
  }

  /** `!formData.theme`: no theme, or the falsy theme 0. */
  predicate MissingTheme(theme: Option<int>) {
    theme.None? || theme.value == 0
  }

  /** `e.target.files?.[0] || null`. */
  function ChosenFile(files: Option<seq<FormData.File>>): (file: Option<FormData.File>)
    ensures file.Some? <==> files.Some? && |files.value| > 0
    ensures file.Some? ==> file.value == files.value[0]
  {
    if files.Some? && |files.value| > 0 then Some(files.value[0]) else None
  }

  /** The four text parts every body starts with: the theme id (which reads back as the
      number), the title, the type code and the notes, in that order. */
  predicate TextHead(parts: seq<FormData.Part>, theme: int, title: string, vtype: VersionType, notes: string) {
    |parts| >= 4
    && FormData.Names(parts[..4]) == ["theme", "title", "type", "notes"]
    && parts[0].TextPart? && parts[1].TextPart? && parts[2].TextPart? && parts[3].TextPart?
    && Json.ParseInt(parts[0].text) == Some((theme, ""))
    && parts[1].text == title && parts[2].text == vtype.Code() && parts[3].text == notes
  }

  /** The four text parts `handleSubmit` appends first. */
  function Head(theme: int, title: string, vtype: VersionType, notes: string): seq<FormData.Part> {
    [FormData.TextPart("theme", Js.IntToString(theme)), FormData.TextPart("title", title),
     FormData.TextPart("type", vtype.Code()), FormData.TextPart("notes", notes)]
  }

  /** The part a chosen file adds, if any. */
  function FileParts(name: string, file: Option<FormData.File>): seq<FormData.Part> {
    if file.Some? then [FormData.FilePart(name, file.value)] else []
  }

  /** `submitData`, as the sequence of its parts. */
  function Body(theme: int, title: string, vtype: VersionType, notes: string,
                image: Option<FormData.File>, audio: Option<FormData.File>, mus: Option<FormData.File>): seq<FormData.Part> {
    Head(theme, title, vtype, notes) + FileParts("image", image) + FileParts("audio_file", audio) + FileParts("mus_file", mus)
  }

  lemma HeadIsTextHead(theme: int, title: string, vtype: VersionType, notes: string)
    ensures TextHead(Head(theme, title, vtype, notes), theme, title, vtype, notes)
  {
    Json.IntRoundTrip(theme, "");
    assert Js.IntToString(theme) + "" == Js.IntToString(theme);
  }

  /** The body: the four text parts, then each chosen file under its key, in the order
      image, audio, score, and nothing else. */
  lemma BodyLayout(theme: int, title: string, vtype: VersionType, notes: string,
                   image: Option<FormData.File>, audio: Option<FormData.File>, mus: Option<FormData.File>)
    ensures var parts := Body(theme, title, vtype, notes, image, audio, mus);
      && TextHead(parts, theme, title, vtype, notes)
      && |parts| == 4 + (if image.Some? then 1 else 0) + (if audio.Some? then 1 else 0) + (if mus.Some? then 1 else 0)
      && (forall i :: 4 <= i < |parts| ==> parts[i].FilePart?)
      && (image.Some? ==> parts[4] == FormData.FilePart("image", image.value))
      && (audio.Some? ==> parts[if image.Some? then 5 else 4] == FormData.FilePart("audio_file", audio.value))
      && (mus.Some? ==> parts[|parts| - 1] == FormData.FilePart("mus_file", mus.value))
  {
    var head := Head(theme, title, vtype, notes);
    var parts := Body(theme, title, vtype, notes, image, audio, mus);
    HeadIsTextHead(theme, title, vtype, notes);
    assert parts[..4] == head;
    assert forall i :: 0 <= i < 4 ==> parts[i] == head[i];
    assert parts[..4][..4] == parts[..4];
  }

  /** `handleSubmit`'s construction of `submitData`: four text appends, then one append per
      chosen file. */
  method SubmitBody(theme: int, title: string, vtype: VersionType, notes: string,
                    image: Option<FormData.File>, audio: Option<FormData.File>, mus: Option<FormData.File>)
    returns (parts: seq<FormData.Part>)
    ensures parts == Body(theme, title, vtype, notes, image, audio, mus)
  {
    var form := new FormData.Form();
    form.AppendText("theme", Js.IntToString(theme));
    form.AppendText("title", title);
    form.AppendText("type", vtype.Code());
    form.AppendText("notes", notes);
    assert form.parts == Head(theme, title, vtype, notes);
    if image.Some? {
      form.AppendFile("image", image.value);
    }
    assert form.parts == Head(theme, title, vtype, notes) + FileParts("image", image);
    if audio.Some? {
      form.AppendFile("audio_file", audio.value);
    }
    assert form.parts == Head(theme, title, vtype, notes) + FileParts("image", image) + FileParts("audio_file", audio);
    if mus.Some? {
      form.AppendFile("mus_file", mus.value);
    }
    parts := form.parts;
  }

  class VersionModal {
    /** The `version` prop: the version being edited, if any. */
    var version: Option<Version>
    var theme: Option<int>
    var title: string
    var vtype: VersionType
    var notes: string
    var image: Option<FormData.File>
    var audioFile: Option<FormData.File>
    var musFile: Option<FormData.File>
    var loading: bool
    var error: string

    /** The initial form: no theme, empty texts, type STANDARD, no files. */
    constructor ()
      ensures version.None? && theme.None? && title == "" && vtype == Standard && notes == ""
      ensures image.None? && audioFile.None? && musFile.None? && !loading && error == ""
    {
      version, theme, title, vtype, notes := None, None, "", Standard, "";
      image, audioFile, musFile := None, None, None;
      loading, error := false, "";
    }

    /** `isEditing = !!version`. */
    predicate IsEditing()
      reads this
    {
      version.Some?
    }

    /** The effect run when the modal opens: the form is refilled from the version being edited
        (a missing title or notes as empty text), or reset to the defaults; the files are cleared
        and so is the error. */
    method Open(edited: Option<Version>)
      modifies this
      ensures version == edited
      ensures edited.Some? ==>
        theme == Some(edited.value.theme) && vtype == edited.value.vtype
        && title == (if edited.value.title.Some? then edited.value.title.value else "")
        && notes == (if edited.value.notes.Some? then edited.value.notes.value else "")
      ensures edited.None? ==> theme.None? && title == "" && vtype == Standard && notes == ""
      ensures image.None? && audioFile.None? && musFile.None? && error == "" && loading == old(loading)
    {
      version := edited;
      if edited.Some? {
        var v := edited.value;
        theme, vtype := Some(v.theme), v.vtype;
        title := Js.ToJsString(Js.Or(if v.title.Some? then Js.Str(v.title.value) else Js.Undefined, Js.Str("")));
        notes := Js.ToJsString(Js.Or(if v.notes.Some? then Js.Str(v.notes.value) else Js.Undefined, Js.Str("")));
      } else {
        theme, title, vtype, notes := None, "", Standard, "";
      }
      image, audioFile, musFile := None, None, None;
      error := "";
    }

    /** The theme select. It is disabled while editing, so then the theme stays as it is. */
    method SelectTheme(text: string, number: string -> Option<int>)
      modifies this
      ensures IsEditing() ==> theme == old(theme)
      ensures !IsEditing() ==> theme == SelectedTheme(text, number)
      ensures version == old(version) && title == old(title) && vtype == old(vtype) && notes == old(notes)
      ensures image == old(image) && audioFile == old(audioFile) && musFile == old(musFile)
      ensures loading == old(loading) && error == old(error)
    {
      if !IsEditing() {
        theme := SelectedTheme(text, number);
      }
    }

    method SetTitle(text: string)
      modifies this
      ensures title == text
      ensures version == old(version) && theme == old(theme) && vtype == old(vtype) && notes == old(notes)
      ensures image == old(image) && audioFile == old(audioFile) && musFile == old(musFile)
      ensures loading == old(loading) && error == old(error)
    {
      title := text;
    }

    method SetType(t: VersionType)
      modifies this
      ensures vtype == t
      ensures version == old(version) && theme == old(theme) && title == old(title) && notes == old(notes)
      ensures image == old(image) && audioFile == old(audioFile) && musFile == old(musFile)
      ensures loading == old(loading) && error == old(error)
    {
      vtype := t;
    }

    method SetNotes(text: string)
      modifies this
      ensures notes == text
      ensures version == old(version) && theme == old(theme) && vtype == old(vtype) && title == old(title)
      ensures image == old(image) && audioFile == old(audioFile) && musFile == old(musFile)
      ensures loading == old(loading) && error == old(error)
    {
      notes := text;
    }

    /** `handleFileChange(field)`: that file input's first file, or none; the other fields stay. */
    method HandleFileChange(field: FileField, files: Option<seq<FormData.File>>)
      modifies this
      ensures field == ImageFile ==> image == ChosenFile(files) && audioFile == old(audioFile) && musFile == old(musFile)
      ensures field == AudioFile ==> audioFile == ChosenFile(files) && image == old(image) && musFile == old(musFile)
      ensures field == MusFile ==> musFile == ChosenFile(files) && image == old(image) && audioFile == old(audioFile)
      ensures version == old(version) && theme == old(theme) && title == old(title) && vtype == old(vtype)
      ensures notes == old(notes) && loading == old(loading) && error == old(error)
    {
      var file := ChosenFile(files);
      match field
      case ImageFile => image := file;
      case AudioFile => audioFile := file;
      case MusFile => musFile := file;
    }

    /** `handleSubmit`. Without a theme the error says so and no request is made. Otherwise the
        body goes to update with the edited version's id, or to create; on success `onSuccess`
        and then `onClose` are called, on failure the server's detail (or a default) becomes the
        error. Loading is over at the end either way. */
    method HandleSubmit(outcome: SaveOutcome) returns (call: Option<SubmitCall>, callbacks: seq<Callback>)
      modifies this
      ensures MissingTheme(old(theme)) ==>
        call.None? && callbacks == [] && error == "Debes seleccionar un tema" && loading == old(loading)
      ensures !MissingTheme(old(theme)) ==> call.Some? && !loading
      ensures call.Some? && old(version).Some? ==> call.value.Update? && call.value.id == old(version).value.id
      ensures call.Some? && old(version).None? ==> call.value.Create?
      ensures call.Some? ==> call.value.body == Body(old(theme).value, old(title), old(vtype), old(notes), old(image), old(audioFile), old(musFile))
      ensures call.Some? && outcome == Saved ==> callbacks == [OnSuccess, OnClose] && error == ""
      ensures call.Some? && outcome.Failed? ==>
        callbacks == [] && error == (if outcome.detail.Some? && outcome.detail.value != "" then outcome.detail.value else "Error al guardar la versión")
      ensures version == old(version) && theme == old(theme) && title == old(title) && vtype == old(vtype) && notes == old(notes)
      ensures image == old(image) && audioFile == old(audioFile) && musFile == old(musFile)
    {
      if MissingTheme(theme) {
        error := "Debes seleccionar un tema";
        return None, [];
      }
      loading := true;
      error := "";
      var body := SubmitBody(theme.value, title, vtype, notes, image, audioFile, musFile);
      if IsEditing() {
        call := Some(Update(version.value.id, body));
      } else {
        call := Some(Create(body));
      }
      if outcome == Saved {
        callbacks := [OnSuccess, OnClose];
      } else {
        callbacks := [];
        var detail := if outcome.detail.Some? then Js.Str(outcome.detail.value) else Js.Undefined;
        error := Js.ToJsString(Js.Or(detail, Js.Str("Error al guardar la versión")));
      }
      loading := false;
    }

    /** The submit button's caption. */
    function SubmitCaption(): (caption: string)
      reads this
      ensures loading ==> caption == "Guardando..."
      ensures !loading ==> caption == (if IsEditing() then "Actualizar" else "Crear")
    {
      if loading then "Guardando..." else if IsEditing() then "Actualizar" else "Crear"
    }
  }
}
