/** The events page (src/pages/Events.tsx): its form fields with the location and
    repertoire options filled in, the records `handleCreate` and `handleEdit` start
    from, the id mapping of its save payload, its columns, and its `loadData`. */
module EventsPage {
  import opened Js
  import opened Wrappers
  import FormDialog
  import Pages

  const EventFields: seq<FormDialog.FormField> := [
    FormDialog.FormField("title", "Título", FormDialog.Text, true, [], None, None, false),
    FormDialog.FormField("description", "Descripción", FormDialog.Textarea, false, [], None, None, false),
    FormDialog.FormField("event_type", "Tipo de Evento", FormDialog.Select, true, [
      FormDialog.SelectOption(Str("CONCERT"), "Concierto"), FormDialog.SelectOption(Str("REHEARSAL"), "Ensayo"),
      FormDialog.SelectOption(Str("RECORDING"), "Grabación"), FormDialog.SelectOption(Str("WORKSHOP"), "Taller"),
      FormDialog.SelectOption(Str("OTHER"), "Otro")], None, None, false),
    FormDialog.FormField("status", "Estado", FormDialog.Select, true, [
      FormDialog.SelectOption(Str("DRAFT"), "Borrador"), FormDialog.SelectOption(Str("CONFIRMED"), "Confirmado"),
      FormDialog.SelectOption(Str("CANCELLED"), "Cancelado"), FormDialog.SelectOption(Str("COMPLETED"), "Completado")],
      None, None, false),
    FormDialog.FormField("start_datetime", "Fecha y Hora de Inicio", FormDialog.DatetimeLocal, true, [], None, None, false),
    FormDialog.FormField("end_datetime", "Fecha y Hora de Fin", FormDialog.DatetimeLocal, false, [], None, None, false),
    FormDialog.FormField("location_id", "Ubicación", FormDialog.Select, false, [], None, None, false),
    FormDialog.FormField("repertoire_id", "Repertorio", FormDialog.Select, false, [], None, None, false),
    FormDialog.FormField("is_public", "Evento Público", FormDialog.Boolean, false, [], None, None, false),
    FormDialog.FormField("max_attendees", "Máximo de Asistentes", FormDialog.Number, false, [], None, None, false)]

  /** A location option: its id, labelled `name, city`. */
  function LocationOption(location: Record): FormDialog.SelectOption {
    FormDialog.SelectOption(Get(location, "id"), ToJsString(Get(location, "name")) + ", " + ToJsString(Get(location, "city")))
  }

  /** A repertoire option: its id, labelled with its name. */
  function RepertoireOption(repertoire: Record): FormDialog.SelectOption {
    FormDialog.SelectOption(Get(repertoire, "id"), ToJsString(Get(repertoire, "name")))
  }

  function LocationOptions(locations: seq<Record>): (options: seq<FormDialog.SelectOption>)
    ensures |options| == |locations|
    ensures forall i :: 0 <= i < |locations| ==> options[i] == LocationOption(locations[i])
  {
    seq(|locations|, i requires 0 <= i < |locations| => LocationOption(locations[i]))
  }

  function RepertoireOptions(repertoires: seq<Record>): (options: seq<FormDialog.SelectOption>)
    ensures |options| == |repertoires|
    ensures forall i :: 0 <= i < |repertoires| ==> options[i] == RepertoireOption(repertoires[i])
  {
    seq(|repertoires|, i requires 0 <= i < |repertoires| => RepertoireOption(repertoires[i]))
  }

  /** `fieldsWithOptions`: the location and repertoire selects get the loaded lists as options,
      every other field stays as declared. */
  function FieldsWithOptions(locations: seq<Record>, repertoires: seq<Record>): (fields: seq<FormDialog.FormField>)
    ensures |fields| == |EventFields|
    ensures forall i :: 0 <= i < |EventFields| ==> fields[i].key == EventFields[i].key
    ensures forall i :: 0 <= i < |EventFields| && EventFields[i].key == "location_id" ==>
      fields[i] == EventFields[i].(options := LocationOptions(locations))
    ensures forall i :: 0 <= i < |EventFields| && EventFields[i].key == "repertoire_id" ==>
      fields[i] == EventFields[i].(options := RepertoireOptions(repertoires))
    ensures forall i :: 0 <= i < |EventFields| && EventFields[i].key !in {"location_id", "repertoire_id"} ==>
      fields[i] == EventFields[i]
  {
    Pages.InjectOptions(Pages.InjectOptions(EventFields, "location_id", LocationOptions(locations)),
      "repertoire_id", RepertoireOptions(repertoires))
  }

  /** `handleCreate`'s record. */
  function CreateDefaults(): (form: Record)
    ensures form.Keys == {"title", "description", "event_type", "status", "is_public", "max_attendees"}
    ensures form["event_type"] == Str("OTHER") && form["status"] == Str("DRAFT")
    ensures form["is_public"] == Bool(false) && form["max_attendees"] == Num(0)
    ensures form["title"] == Str("") && form["description"] == Str("")
  {
    map["title" := Str(""), "description" := Str(""), "event_type" := Str("OTHER"), "status" := Str("DRAFT"),
        "is_public" := Bool(false), "max_attendees" := Num(0)]
  }

  /** The default type and status are among the options of their selects. */
  lemma DefaultsAreOptions()
    ensures EventFields[2].key == "event_type" && FormDialog.SelectOption(CreateDefaults()["event_type"], "Otro") in EventFields[2].options
    ensures EventFields[3].key == "status" && FormDialog.SelectOption(CreateDefaults()["status"], "Borrador") in EventFields[3].options
  {
    assert EventFields[2].options[4] == FormDialog.SelectOption(Str("OTHER"), "Otro");
    assert EventFields[3].options[0] == FormDialog.SelectOption(Str("DRAFT"), "Borrador");
  }

  /** `handleEdit`'s record: the event, with a falsy `location_id` or `repertoire_id` as `null`. */
  function EditForm(row: Record): (form: Record)
    ensures form.Keys == row.Keys + {"location_id", "repertoire_id"}
    ensures form["location_id"] == (if Truthy(Get(row, "location_id")) then row["location_id"] else Null)
    ensures form["repertoire_id"] == (if Truthy(Get(row, "repertoire_id")) then row["repertoire_id"] else Null)
    ensures forall k :: k in row && k !in {"location_id", "repertoire_id"} ==> form[k] == row[k]
  {
    row["location_id" := Or(Get(row, "location_id"), Null)]["repertoire_id" := Or(Get(row, "repertoire_id"), Null)]
  }

  /** The save payload: a falsy `location_id` or `repertoire_id` becomes `undefined`, every other
      key is copied. */
  function Payload(form: Record): (payload: Record)
    ensures payload.Keys == form.Keys + {"location_id", "repertoire_id"}
    ensures payload["location_id"] == (if Truthy(Get(form, "location_id")) then form["location_id"] else Undefined)
    ensures payload["repertoire_id"] == (if Truthy(Get(form, "repertoire_id")) then form["repertoire_id"] else Undefined)
    ensures forall k :: k in form && k !in {"location_id", "repertoire_id"} ==> payload[k] == form[k]
  {
    form["location_id" := Or(Get(form, "location_id"), Undefined)]["repertoire_id" := Or(Get(form, "repertoire_id"), Undefined)]
  }

  /** Editing and saving at once sends what was loaded, except that unset ids are left out. */
  lemma EditThenSave(row: Record)
    ensures forall k :: k in row && k !in {"location_id", "repertoire_id"} ==> Payload(EditForm(row))[k] == row[k]
    ensures !IsNullish(Payload(EditForm(row))["location_id"]) ==> Payload(EditForm(row))["location_id"] == row["location_id"]
    ensures Get(row, "location_id") == Num(0) ==> Payload(EditForm(row))["location_id"] == Undefined
  {
  }

  /** The Spanish names of the event types. */
  function EventTypeLabels(): map<string, string> {
    map["CONCERT" := "Concierto", "REHEARSAL" := "Ensayo", "RECORDING" := "Grabación", "WORKSHOP" := "Taller", "OTHER" := "Otro"]
  }

  /** The type column, `types[value] || value`: the name of a known type, anything else as it is. */
  function EventTypeCell(value: Value): (shown: Value)
    ensures value.Str? && value.s in EventTypeLabels() ==> shown == Str(EventTypeLabels()[value.s])
    ensures ToJsString(value) !in EventTypeLabels() ==> shown == value
  {
    var key := ToJsString(value);
    if key in EventTypeLabels() then Or(Str(EventTypeLabels()[key]), value) else value
  }

  /** The location column: `name, city` of an embedded object, `-` for anything else. */
  function LocationCell(value: Value): (text: string)
    ensures value.Obj? ==> text == ToJsString(Get(value.fields, "name")) + ", " + ToJsString(Get(value.fields, "city"))
    ensures !value.Obj? && !value.Arr? ==> text == "-"
  {
    match value
    case Obj(fields) => ToJsString(Get(fields, "name")) + ", " + ToJsString(Get(fields, "city"))
    case Arr(_) => "undefined, undefined"
    case _ => "-"
  }

  /** The query of `getEvents`: the one-based page and the page size. */
  function EventsQuery(page: nat, rowsPerPage: nat): (query: Record)
    ensures query.Keys == {"page", "page_size"}
    ensures query["page"] == Num(page + 1) && query["page_size"] == Num(rowsPerPage)
  {
    map["page" := Num(page + 1), "page_size" := Num(rowsPerPage)]
  }

  /** `loadData`: the three lists arrive together; events are `results || []` with
      `count || 0`, and so are the locations and repertoires. */
  function Load(eventsData: Value, locationsData: Value, repertoiresData: Value): (r: Result<Pages.Loaded>)
    ensures r.Ok? <==>
      (Pages.EnvelopeRows(eventsData).Ok? && Pages.EnvelopeCount(eventsData).Ok?
       && Pages.EnvelopeRows(locationsData).Ok? && Pages.EnvelopeRows(repertoiresData).Ok?)
    ensures r.Ok? ==>
      r.value.rows == Pages.EnvelopeRows(eventsData).value && r.value.totalCount == Pages.EnvelopeCount(eventsData).value
      && r.value.locations == Some(Pages.EnvelopeRows(locationsData).value)
      && r.value.repertoires == Some(Pages.EnvelopeRows(repertoiresData).value) && r.value.themes.None?
  {
    match Pages.EnvelopeRows(eventsData)
    case Err(e) => Err(e)
    case Ok(rows) =>
      match Pages.EnvelopeCount(eventsData)
      case Err(e) => Err(e)
      case Ok(count) =>
        match Pages.EnvelopeRows(locationsData)
        case Err(e) => Err(e)
        case Ok(locations) =>
          match Pages.EnvelopeRows(repertoiresData)
          case Err(e) => Err(e)
          case Ok(repertoires) => Ok(Pages.Loaded(rows, count, None, Some(locations), Some(repertoires)))
  }
}
