/** `EventDetail` (src/components/EventDetail.tsx): the event editor. Its form is
    one record that the handlers update key by key; locations come from
    `LocationSelector` and are extended by the locations it creates. API answers
    and the clock are inputs of the handlers that use them; the callbacks
    `onSave` and `onBack` are returned. The `error` it keeps is never shown. */
module EventDetail {
  import opened Wrappers
  import opened Js
  import opened Types
  import opened EventForm

  class EventDetail {
    const event: Option<Event>
    const isCreating: bool
    var formData: Record
    var locations: seq<Location>
    var repertoires: seq<Repertoire>
    var loading: bool
    var saving: bool
    var error: string

    /** Mounting: the form of a new event, or the one loaded from the given event, and
        loading until the dependencies arrive. */
    constructor (event: Option<Event>, isCreating: bool, now: string)
      ensures this.event == event && this.isCreating == isCreating
      ensures event.None? ==> formData == InitialForm(now)
      ensures event.Some? ==> formData == FromEvent(event.value, now)
      ensures locations == [] && repertoires == [] && loading && !saving && error == ""
    {
      this.event := event;
      this.isCreating := isCreating;
      formData := InitialForm(now);
      if event.Some? {
        formData := FromEvent(event.value, now);
      }
      locations, repertoires := [], [];
      loading, saving, error := true, false, "";
    }

    /** `loadDependencies`: both lists on success, the error otherwise; loading ends either way. */
    method LoadDependencies(response: Result<(seq<Location>, seq<Repertoire>)>)
      modifies this
      ensures !loading && formData == old(formData) && saving == old(saving)
      ensures response.Ok? ==> locations == response.value.0 && repertoires == response.value.1 && error == old(error)
      ensures response.Err? ==> locations == old(locations) && repertoires == old(repertoires) && error == LoadError
    {
      loading := true;
      if response.Ok? {
        locations := response.value.0;
        repertoires := response.value.1;
      } else {
        error := LoadError;
      }
      loading := false;
    }

    /** `handleChange` and `handleInputChange`, which are the same: the named key takes the
        input's value and no other key changes. */
    method HandleChange(name: string, text: string, isNumber: bool, parseInt: string -> int)
      modifies this
      ensures formData == old(formData)[name := InputValue(isNumber, text, parseInt)]
      ensures locations == old(locations) && repertoires == old(repertoires)
      ensures loading == old(loading) && saving == old(saving) && error == old(error)
    {
      var value := if isNumber then (if text != "" then Num(parseInt(text)) else Undefined) else Str(text);
      formData := formData[name := value];
    }

    /** `handleCheckboxChange`: the named key takes the box's state. */
    method HandleCheckboxChange(name: string, checked: bool)
      modifies this
      ensures formData == old(formData)[name := Bool(checked)]
      ensures locations == old(locations) && repertoires == old(repertoires)
      ensures loading == old(loading) && saving == old(saving) && error == old(error)
    {
      formData := formData[name := Bool(checked)];
    }

    /** `handleDateTimeChange`: a picked date is stored as its ISO string; a cleared picker
        leaves the form as it is. */
    method HandleDateTimeChange(field: DateField, value: Option<string>)
      modifies this
      ensures value.Some? ==> formData == old(formData)[field.Key() := Str(value.value)]
      ensures value.None? ==> formData == old(formData)
      ensures locations == old(locations) && repertoires == old(repertoires)
      ensures loading == old(loading) && saving == old(saving) && error == old(error)
    {
      if value.Some? {
        formData := formData[field.Key() := Str(value.value)];
      }
    }

    /** `handleLocationChange`: the location and its details are set together; details the
        selector did not send become `undefined`. */
    method HandleLocationChange(locationId: int, details: Option<LocationDetails>)
      modifies this
      ensures formData == old(formData)["location" := Num(locationId)]["location_details" := OptDetails(details)]
      ensures locations == old(locations) && repertoires == old(repertoires)
      ensures loading == old(loading) && saving == old(saving) && error == old(error)
    {
      formData := formData["location" := Num(locationId)]["location_details" := OptDetails(details)];
    }

    /** `handleLocationCreated`: the new location is added at the end of the list. */
    method HandleLocationCreated(location: Location)
      modifies this
      ensures locations == old(locations) + [location]
      ensures formData == old(formData) && repertoires == old(repertoires)
      ensures loading == old(loading) && saving == old(saving) && error == old(error)
    {
      locations := locations + [location];
    }

    /** `handleRepertoireChange`: the chosen repertoire id, with the empty choice `''` (or any
        falsy value) stored as `null`. */
    method HandleRepertoireChange(value: Value)
      modifies this
      ensures Truthy(value) ==> formData == old(formData)["repertoire" := value]
      ensures !Truthy(value) ==> formData == old(formData)["repertoire" := Null]
      ensures locations == old(locations) && repertoires == old(repertoires)
      ensures loading == old(loading) && saving == old(saving) && error == old(error)
    {
      formData := formData["repertoire" := Or(value, Null)];
    }

    /** `handleSubmit`: the payload built from the form and the event goes to the call
        `SubmitCall` picks; `response` is the API's answer to it. The saved event reaches
        `onSave` only when a call was made and succeeded; otherwise the error is set. Saving
        ends either way and the form is untouched. */
    method HandleSubmit(now: string, response: Result<Event>) returns (call: Option<SaveCall>, onSave: Option<Event>)
      modifies this
      ensures call == SubmitCall(isCreating, event, EventToSave(old(formData), event, now))
      ensures onSave.Some? <==> call.Some? && response.Ok?
      ensures onSave.Some? ==> onSave.value == response.value && error == old(error)
      ensures onSave.None? ==> error == SaveError
      ensures !saving && formData == old(formData) && locations == old(locations)
      ensures repertoires == old(repertoires) && loading == old(loading)
    {
      saving := true;
      var eventToSave := EventToSave(formData, event, now);
      onSave := None;
      if isCreating {
        call := Some(Create(eventToSave));
      } else if event.Some? && event.value.id != 0 {
        call := Some(Update(event.value.id, eventToSave));
      } else {
        call := None;
      }
      if call.Some? && response.Ok? {
        onSave := Some(response.value);
      } else {
        error := SaveError;
      }
      saving := false;
    }

    /** `handleDelete`: after confirmation, an event with an id is deleted and `onBack` is
        called when that succeeds; a failed delete sets the error. Nothing happens without
        confirmation or without an id. */
    method HandleDelete(confirmed: bool, response: Result<()>) returns (deleted: Option<int>, onBack: bool)
      modifies this
      ensures deleted == DeleteTarget(confirmed, event)
      ensures onBack <==> deleted.Some? && response.Ok?
      ensures deleted.Some? && response.Err? ==> error == DeleteError
      ensures !(deleted.Some? && response.Err?) ==> error == old(error)
      ensures formData == old(formData) && locations == old(locations) && repertoires == old(repertoires)
      ensures loading == old(loading) && saving == old(saving)
    {
      deleted, onBack := None, false;
      if confirmed {
        if event.Some? && event.value.id != 0 {
          deleted := Some(event.value.id);
          if response.Ok? {
            onBack := true;
          } else {
            error := DeleteError;
          }
        }
      }
    }

    /** The Delete button exists only when editing; it, Cancel and Save are disabled while
        saving. */
    predicate ShowsDelete()
      reads this
    {
      !isCreating
    }

    predicate ButtonsDisabled()
      reads this
    {
      saving
    }

    /** The repertoire select's value: the id, or `''` when there is none. */
    function RepertoireSelectValue(): (v: Value)
      reads this
      ensures Truthy(Get(formData, "repertoire")) ==> v == Get(formData, "repertoire")
      ensures !Truthy(Get(formData, "repertoire")) ==> v == Str("")
    {
      Or(Get(formData, "repertoire"), Str(""))
    }
  }
}
