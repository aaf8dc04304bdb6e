/** The event form shared by `EventDetail` (src/components/EventDetail.tsx) and
    `EventDetailOriginal` (src/components/EventDetailOriginal.tsx): its initial
    state, the state loaded from an event, the value an input stores, the
    `eventToSave` payload, and which API call a submit or a delete makes.
    `formData` is a `Js.Record`; the clock is the ISO string `now`. */
module EventForm {
  import opened Wrappers
  import opened Js
  import opened Types

  /** The keys of the initial `formData`. */
  const FormKeys: set<string> :=
    {"title", "description", "location", "repertoire", "start_time", "end_time", "is_public", "max_attendees", "notes"}

  /** The keys `eventToSave` writes over the spread form. */
  const SaveKeys: set<string> :=
    {"id", "created_at", "updated_at", "status", "location", "repertoire", "start_time", "end_time",
     "is_public", "max_attendees", "notes", "location_details"}

  const LoadError := "Error al cargar los datos necesarios"
  const SaveError := "Error al guardar el evento. Por favor intente nuevamente."
  const DeleteError := "Error al eliminar el evento"

  /** The form of a new event: empty texts, no location or repertoire, starting now, private,
      no limit of attendees. */
  function InitialForm(now: string): (form: Record)
    ensures form.Keys == FormKeys
  {
    map["title" := Str(""), "description" := Str(""), "location" := Null, "repertoire" := Null,
        "start_time" := Str(now), "end_time" := Str(""), "is_public" := Bool(false),
        "max_attendees" := Undefined, "notes" := Str("")]
  }

  /** `typeof event.location === 'object' ? event.location.id : event.location`. */
  function LocationIdOf(location: EventLocation): int {
    match location
    case LocationId(id) => id
    case LocationRecord(l) => l.id
  }

  /** `event.repertoire ? (typeof event.repertoire === 'object' ? event.repertoire.id : event.repertoire) : null`:
      an embedded repertoire gives its id; a bare id gives itself unless it is the falsy 0. */
  function RepertoireValue(repertoire: Option<EventRepertoire>): (v: Value)
    ensures v.Null? || v.Num?
    ensures v.Null? <==> repertoire.None? || repertoire == Some(RepertoireId(0))
    ensures repertoire.Some? && repertoire.value.RepertoireRecord? ==> v == Num(repertoire.value.record.id)
    ensures repertoire.Some? && repertoire.value.RepertoireId? && repertoire.value.id != 0 ==> v == Num(repertoire.value.id)
  {
    match repertoire
    case None => Null
    case Some(RepertoireId(id)) => Or(Num(id), Null)
    case Some(RepertoireRecord(r)) => Num(r.id)
  }

  /** The form loaded from an event: its own members, the texts it may lack as `''`, a
      start time falling back to now, and the location and repertoire as ids; the previous
      form is replaced as a whole. */
  function FromEvent(e: Event, now: string): (form: Record)
    ensures "title" in form && "description" in form && "start_time" in form && "end_time" in form
    ensures "location" in form && "repertoire" in form && "is_public" in form && "max_attendees" in form
    ensures "notes" in form && "location_details" in form
    ensures forall k :: k in form ==> k in FormKeys || k == "location_details"
  {
    map[]
      ["title" := Str(e.title)]
      ["description" := Or(OptStr(e.description), Str(""))]
      ["start_time" := Or(Str(e.start_time), Str(now))]
      ["end_time" := Or(OptStr(e.end_time), Str(""))]
      ["location" := Num(LocationIdOf(e.location))]
      ["repertoire" := RepertoireValue(e.repertoire)]
      ["is_public" := Bool(e.is_public)]
      ["max_attendees" := OptNum(e.max_attendees)]
      ["notes" := Or(OptStr(e.notes), Str(""))]
      ["location_details" := OptDetails(e.location_details)]
  }

  /** What `handleChange` and `handleInputChange` store for an input: the raw text, or for a
      `number` input the parsed integer, `undefined` when it is empty. A number input's
      value is empty or numeric, so `parseInt` is total on it. */
  function InputValue(isNumber: bool, text: string, parseInt: string -> int): (v: Value)
    ensures !isNumber ==> v == Str(text)
    ensures isNumber && text != "" ==> v == Num(parseInt(text))
    ensures isNumber && text == "" ==> v == Undefined
  {
    if isNumber then (if Truthy(Str(text)) then Num(parseInt(text)) else Undefined) else Str(text)
  }

  /** `eventToSave`: the form spread with the event's id (0 for a new one), creation time and
      the current update time, status `scheduled`, `location || 0`, `repertoire || undefined`,
      `end_time || undefined`, and the remaining members as the form has them. */
  function EventToSave(form: Record, event: Option<Event>, now: string): Record
  {
    var id := if event.Some? then Num(event.value.id) else Undefined;
    var createdAt := if event.Some? then Str(event.value.created_at) else Undefined;
    form
      ["id" := Or(id, Num(0))]
      ["created_at" := Or(createdAt, Str(now))]
      ["updated_at" := Str(now)]
      ["status" := Str("scheduled")]
      ["location" := Or(Get(form, "location"), Num(0))]
      ["repertoire" := Or(Get(form, "repertoire"), Undefined)]
      ["start_time" := Get(form, "start_time")]
      ["end_time" := Or(Get(form, "end_time"), Undefined)]
      ["is_public" := Get(form, "is_public")]
      ["max_attendees" := Get(form, "max_attendees")]
      ["notes" := Get(form, "notes")]
      ["location_details" := Get(form, "location_details")]
  }

  /** The payload has every key `eventToSave` writes, and beyond them only the form's own
      keys, which it carries over unchanged. */
  lemma EventToSaveKeys(form: Record, event: Option<Event>, now: string)
    ensures var body := EventToSave(form, event, now);
      && SaveKeys <= body.Keys
      && (forall k :: k in body ==> k in form || k in SaveKeys)
      && (forall k :: k in form && k !in SaveKeys ==> k in body && body[k] == form[k])
  {
  }

  /** The title and description, the form keys it does not write, are carried over. */
  lemma EventToSaveCarriesTexts(form: Record, event: Option<Event>, now: string)
    ensures var body := EventToSave(form, event, now);
      && ("title" in form ==> "title" in body && body["title"] == form["title"])
      && ("description" in form ==> "description" in body && body["description"] == form["description"])
  {
  }

  /** The record keys it writes: the event's id and creation time, falling back to 0 and now;
      the update time now; status `scheduled`. */
  lemma EventToSaveStamps(form: Record, event: Option<Event>, now: string)
    ensures var body := EventToSave(form, event, now);
      && SaveKeys <= body.Keys
      && body["id"] == Num(if event.Some? then event.value.id else 0)
      && body["created_at"] == (if event.Some? && event.value.created_at != "" then Str(event.value.created_at) else Str(now))
      && body["updated_at"] == Str(now) && body["status"] == Str("scheduled")
  {
  }

  /** The form keys it writes: a falsy location as 0, a falsy repertoire or end time as
      `undefined`, the others as the form has them. */
  lemma EventToSaveFields(form: Record, event: Option<Event>, now: string)
    ensures var body := EventToSave(form, event, now);
      && SaveKeys <= body.Keys
      && body["location"] == (if Truthy(Get(form, "location")) then Get(form, "location") else Num(0))
      && body["repertoire"] == (if Truthy(Get(form, "repertoire")) then Get(form, "repertoire") else Undefined)
      && body["end_time"] == (if Truthy(Get(form, "end_time")) then Get(form, "end_time") else Undefined)
      && body["start_time"] == Get(form, "start_time") && body["is_public"] == Get(form, "is_public")
      && body["max_attendees"] == Get(form, "max_attendees") && body["notes"] == Get(form, "notes")
      && body["location_details"] == Get(form, "location_details")
  {
  }

  lemma FromEventValues(e: Event, now: string)
    ensures var form := FromEvent(e, now);
      && form["title"] == Str(e.title) && form["description"] == Or(OptStr(e.description), Str(""))
      && form["start_time"] == Or(Str(e.start_time), Str(now)) && form["end_time"] == Or(OptStr(e.end_time), Str(""))
      && form["location"] == Num(LocationIdOf(e.location)) && form["repertoire"] == RepertoireValue(e.repertoire)
      && form["is_public"] == Bool(e.is_public) && form["max_attendees"] == OptNum(e.max_attendees)
      && form["notes"] == Or(OptStr(e.notes), Str("")) && form["location_details"] == OptDetails(e.location_details)
  {
  }

  /** Saving an event that was loaded and left untouched sends back its own id and title,
      and its location when that is truthy. */
  lemma UntouchedEditKeepsIdentity(e: Event, now: string)
    ensures var body := EventToSave(FromEvent(e, now), Some(e), now);
      && body["id"] == Num(e.id) && body["title"] == Str(e.title)
      && (LocationIdOf(e.location) != 0 ==> body["location"] == Num(LocationIdOf(e.location)))
  {
    EventToSaveStamps(FromEvent(e, now), Some(e), now);
    EventToSaveFields(FromEvent(e, now), Some(e), now);
    FromEventValues(e, now);
    EventToSaveCarriesTexts(FromEvent(e, now), Some(e), now);
  }

  /** It sends back the event's visibility, limit of attendees and location details. */
  lemma UntouchedEditKeepsSettings(e: Event, now: string)
    ensures var body := EventToSave(FromEvent(e, now), Some(e), now);
      && body["is_public"] == Bool(e.is_public) && body["max_attendees"] == OptNum(e.max_attendees)
      && body["location_details"] == OptDetails(e.location_details)
  {
    EventToSaveFields(FromEvent(e, now), Some(e), now);
    FromEventValues(e, now);
  }

  /** It sends back a non-empty start time, and the end time when it is non-empty, an
      empty or missing end time becoming `undefined`. */
  lemma UntouchedEditKeepsTimes(e: Event, now: string)
    ensures var body := EventToSave(FromEvent(e, now), Some(e), now);
      && (e.start_time != "" ==> body["start_time"] == Str(e.start_time))
      && (e.end_time.Some? ==> body["end_time"] == (if e.end_time.value != "" then Str(e.end_time.value) else Undefined))
      && (e.end_time.None? ==> body["end_time"] == Undefined)
  {
    EventToSaveFields(FromEvent(e, now), Some(e), now);
    FromEventValues(e, now);
  }

  /** It sends back a non-empty description, and the notes with `''` for missing ones. */
  lemma UntouchedEditKeepsTexts(e: Event, now: string)
    ensures var body := EventToSave(FromEvent(e, now), Some(e), now);
      && (e.description.Some? && e.description.value != "" ==> body["description"] == OptStr(e.description))
      && (e.notes.Some? ==> body["notes"] == Str(e.notes.value))
      && (e.notes.None? ==> body["notes"] == Str(""))
  {
    EventToSaveFields(FromEvent(e, now), Some(e), now);
    FromEventValues(e, now);
    EventToSaveCarriesTexts(FromEvent(e, now), Some(e), now);
  }

  /** It sends back an embedded repertoire's non-zero id and no repertoire for none; the
      status is always `scheduled`, so saving a completed or cancelled event reschedules it. */
  lemma UntouchedEditReschedules(e: Event, now: string)
    ensures var body := EventToSave(FromEvent(e, now), Some(e), now);
      && (e.repertoire.Some? && e.repertoire.value.RepertoireRecord? && e.repertoire.value.record.id != 0 ==> body["repertoire"] == Num(e.repertoire.value.record.id))
      && (e.repertoire.None? ==> body["repertoire"] == Undefined)
      && (body["status"] == Str(e.status.Code()) <==> e.status == Scheduled)
  {
    EventToSaveStamps(FromEvent(e, now), Some(e), now);
    EventToSaveFields(FromEvent(e, now), Some(e), now);
    FromEventValues(e, now);
  }

  /** A new event saved as first shown: id 0, no location (0), no repertoire or end time,
      starting now, private. */
  lemma NewFormSavesEmptyEvent(now: string)
    ensures var body := EventToSave(InitialForm(now), None, now);
      && body["id"] == Num(0) && body["location"] == Num(0)
      && body["repertoire"] == Undefined && body["end_time"] == Undefined
      && body["start_time"] == Str(now) && body["is_public"] == Bool(false) && body["title"] == Str("")
  {
    EventToSaveStamps(InitialForm(now), None, now);
    EventToSaveFields(InitialForm(now), None, now);
    EventToSaveCarriesTexts(InitialForm(now), None, now);
  }

  /** `value.toISOString()` of the picked date, or nothing for a cleared picker. */
  datatype DateField = StartTime | EndTime {
    function Key(): string {
      match this
      case StartTime => "start_time"
      case EndTime => "end_time"
    }
  }

  /** The API call a submit makes. */
  datatype SaveCall = Create(body: Record) | Update(id: int, body: Record)

  /** A new event is created; an existing one with a truthy id is updated under that id; any
      other submit throws before calling the API. */
  function SubmitCall(isCreating: bool, event: Option<Event>, body: Record): (call: Option<SaveCall>)
    ensures isCreating ==> call == Some(Create(body))
    ensures !isCreating && event.Some? && event.value.id != 0 ==> call == Some(Update(event.value.id, body))
    ensures call.None? <==> !isCreating && (event.None? || event.value.id == 0)
  {
    if isCreating then Some(Create(body))
    else if event.Some? && Truthy(Num(event.value.id)) then Some(Update(event.value.id, body))
    else None
  }

  /** The id `handleDelete` deletes: only after confirmation and only for an event with a
      truthy id. */
  function DeleteTarget(confirmed: bool, event: Option<Event>): (id: Option<int>)
    ensures id.Some? <==> confirmed && event.Some? && event.value.id != 0
    ensures id.Some? ==> id.value == event.value.id
  {
    if confirmed && event.Some? && Truthy(Num(event.value.id)) then Some(event.value.id) else None
  }

  /** The captions and gates of the form's buttons: the heading names the mode, the delete
      button exists only when editing, and every button is disabled while saving. */
  function Heading(isCreating: bool): string {
    if isCreating then "Nuevo Evento" else "Editar Evento"
  }

  function SaveCaption(saving: bool): string {
    if saving then "Guardando..." else "Guardar"
  }
}
