/** `EventDetailOriginal` (src/components/EventDetailOriginal.tsx): the earlier event
    editor. It shares the form, payload and submit rules of `EventForm` with
    `EventDetail`, but selects a location with its own inline lookup and creates
    locations in its own dialog, whose record it keeps in `newLocation`. */
module EventDetailOriginal {
  import opened Wrappers
  import opened Js
  import opened Types
  import opened EventForm
  import opened LocationForm
  import LocationSelector

  const CreateLocationError := "Error al crear la ubicación"

  class EventDetailOriginal {
    const event: Option<Event>
    const isCreating: bool
    var formData: Record
    var locations: seq<Location>
    var repertoires: seq<Repertoire>
    var loading: bool
    var saving: bool
    var error: string
    var locationDialogOpen: bool
    var newLocation: Record

    /** Mounting: as in `EventDetail`, with the location dialog closed on the full defaults. */
    constructor (event: Option<Event>, isCreating: bool, now: string)
      ensures this.event == event && this.isCreating == isCreating
      ensures event.None? ==> formData == InitialForm(now)
      ensures event.Some? ==> formData == FromEvent(event.value, now)
      ensures locations == [] && repertoires == [] && loading && !saving && error == ""
      ensures !locationDialogOpen && newLocation == DefaultLocation()
    {
      this.event := event;
      this.isCreating := isCreating;
      formData := if event.Some? then FromEvent(event.value, now) else InitialForm(now);
      locations, repertoires := [], [];
      loading, saving, error := true, false, "";
      locationDialogOpen, newLocation := false, DefaultLocation();
    }

    /** `loadDependencies`, as in `EventDetail`. */
    method LoadDependencies(response: Result<(seq<Location>, seq<Repertoire>)>)
      modifies this
      ensures !loading && formData == old(formData) && saving == old(saving)
      ensures response.Ok? ==> locations == response.value.0 && repertoires == response.value.1 && error == old(error)
      ensures response.Err? ==> locations == old(locations) && repertoires == old(repertoires) && error == LoadError
      ensures locationDialogOpen == old(locationDialogOpen) && newLocation == old(newLocation)
    {
      loading := true;
      if response.Ok? {
        locations, repertoires := response.value.0, response.value.1;
      } else {
        error := LoadError;
      }
      loading := false;
    }

    /** `handleChange` and `handleInputChange`: the named key takes the input's value. */
    method HandleChange(name: string, text: string, isNumber: bool, parseInt: string -> int)
      modifies this
      ensures formData == old(formData)[name := InputValue(isNumber, text, parseInt)]
      ensures locations == old(locations) && repertoires == old(repertoires) && error == old(error)
      ensures loading == old(loading) && saving == old(saving)
      ensures locationDialogOpen == old(locationDialogOpen) && newLocation == old(newLocation)
    {
      formData := formData[name := InputValue(isNumber, text, parseInt)];
    }

    /** `handleCheckboxChange`. */
    method HandleCheckboxChange(name: string, checked: bool)
      modifies this
      ensures formData == old(formData)[name := Bool(checked)]
      ensures locations == old(locations) && repertoires == old(repertoires) && error == old(error)
      ensures loading == old(loading) && saving == old(saving)
      ensures locationDialogOpen == old(locationDialogOpen) && newLocation == old(newLocation)
    {
      formData := formData[name := Bool(checked)];
    }

    /** `handleDateTimeChange`: a cleared picker is ignored. */
    method HandleDateTimeChange(field: DateField, value: Option<string>)
      modifies this
      ensures value.Some? ==> formData == old(formData)[field.Key() := Str(value.value)]
      ensures value.None? ==> formData == old(formData)
      ensures locations == old(locations) && repertoires == old(repertoires) && error == old(error)
      ensures loading == old(loading) && saving == old(saving)
      ensures locationDialogOpen == old(locationDialogOpen) && newLocation == old(newLocation)
    {
      if value.Some? {
        formData := formData[field.Key() := Str(value.value)];
      }
    }

    /** The inline `handleLocationChange`: the id is stored, with the name, address and city
        of the first loaded location having it, or with `undefined` details when none has it.
        It stores exactly what `EventDetail` stores from `LocationSelector`'s report. */
    method HandleLocationChange(locationId: int)
      modifies this
      ensures formData == old(formData)["location" := Num(locationId)]
        ["location_details" := OptDetails(LocationSelector.HandleLocationChange(locations, locationId).details)]
      ensures locations == old(locations) && repertoires == old(repertoires) && error == old(error)
      ensures loading == old(loading) && saving == old(saving)
      ensures locationDialogOpen == old(locationDialogOpen) && newLocation == old(newLocation)
    {
      var selectedLocation := FindLocation(locations, locationId);
      if selectedLocation.Some? {
        formData := formData["location" := Num(locationId)]["location_details" := DetailsObject(DetailsOf(selectedLocation.value))];
      } else {
        formData := formData["location" := Num(locationId)]["location_details" := Undefined];
      }
    }

    /** `handleRepertoireChange`: a falsy choice is stored as `null`. */
    method HandleRepertoireChange(value: Value)
      modifies this
      ensures formData == old(formData)["repertoire" := if Truthy(value) then value else Null]
      ensures locations == old(locations) && repertoires == old(repertoires) && error == old(error)
      ensures loading == old(loading) && saving == old(saving)
      ensures locationDialogOpen == old(locationDialogOpen) && newLocation == old(newLocation)
    {
      formData := formData["repertoire" := Or(value, Null)];
    }

    /** `handleSubmit`: the same payload and call as `EventDetail`'s. */
    method HandleSubmit(now: string, response: Result<Event>) returns (call: Option<SaveCall>, onSave: Option<Event>)
      modifies this
      ensures call == SubmitCall(isCreating, event, EventToSave(old(formData), event, now))
      ensures onSave.Some? <==> call.Some? && response.Ok?
      ensures onSave.Some? ==> onSave.value == response.value && error == old(error)
      ensures onSave.None? ==> error == SaveError
      ensures !saving && formData == old(formData) && locations == old(locations)
      ensures repertoires == old(repertoires) && loading == old(loading)
      ensures locationDialogOpen == old(locationDialogOpen) && newLocation == old(newLocation)
    {
      saving := true;
      var eventToSave := EventToSave(formData, event, now);
      call := SubmitCall(isCreating, event, eventToSave);
      onSave := None;
      if call.Some? && response.Ok? {
        onSave := Some(response.value);
      } else {
        error := SaveError;
      }
      saving := false;
    }

    /** `handleDelete`, as in `EventDetail`. */
    method HandleDelete(confirmed: bool, response: Result<()>) returns (deleted: Option<int>, onBack: bool)
      modifies this
      ensures deleted == DeleteTarget(confirmed, event)
      ensures onBack <==> deleted.Some? && response.Ok?
      ensures error == (if deleted.Some? && response.Err? then DeleteError else old(error))
      ensures formData == old(formData) && locations == old(locations) && repertoires == old(repertoires)
      ensures loading == old(loading) && saving == old(saving)
      ensures locationDialogOpen == old(locationDialogOpen) && newLocation == old(newLocation)
    {
      deleted := DeleteTarget(confirmed, event);
      onBack := deleted.Some? && response.Ok?;
      if deleted.Some? && response.Err? {
        error := DeleteError;
      }
    }

    /** The "Nueva" button opens the dialog; closing it keeps what was typed. */
    method SetLocationDialogOpen(open: bool)
      modifies this
      ensures locationDialogOpen == open && newLocation == old(newLocation)
      ensures formData == old(formData) && locations == old(locations) && repertoires == old(repertoires)
      ensures loading == old(loading) && saving == old(saving) && error == old(error)
    {
      locationDialogOpen := open;
    }

    /** A field of the new-location dialog: only that field changes, capacity as
        `parseInt(text) || 0`. */
    method EditNewLocation(field: string, text: string, parseInt: string -> Option<int>)
      modifies this
      ensures newLocation == old(newLocation)[field := FieldValue(field, text, parseInt)]
      ensures locationDialogOpen == old(locationDialogOpen)
      ensures formData == old(formData) && locations == old(locations) && repertoires == old(repertoires)
      ensures loading == old(loading) && saving == old(saving) && error == old(error)
    {
      newLocation := newLocation[field := FieldValue(field, text, parseInt)];
    }

    /** `handleCreateLocation`: the record is sent; on success the created location is
        appended and selected by id only (the previous `location_details` stay), the dialog
        closes and the record returns to the defaults without contact fields. On failure
        the error is set and everything else stays, the dialog open. */
    method HandleCreateLocation(response: Result<Location>) returns (sent: Record)
      modifies this
      ensures sent == old(newLocation)
      ensures response.Ok? ==>
        && locations == old(locations) + [response.value]
        && formData == old(formData)["location" := Num(response.value.id)]
        && !locationDialogOpen && newLocation == CoreDefaults() && error == old(error)
      ensures response.Err? ==>
        && locations == old(locations) && formData == old(formData)
        && locationDialogOpen == old(locationDialogOpen) && newLocation == old(newLocation)
        && error == CreateLocationError
      ensures repertoires == old(repertoires) && loading == old(loading) && saving == old(saving)
    {
      sent := newLocation;
      if response.Ok? {
        var newLocationData := response.value;
        locations := locations + [newLocationData];
        formData := formData["location" := Num(newLocationData.id)];
        locationDialogOpen := false;
        newLocation := CoreDefaults();
      } else {
        error := CreateLocationError;
      }
    }

    /** "Guardar Ubicación" is enabled exactly when name, city and address are non-empty;
        unlike `LocationDialog` nothing disables it while the request is on its way. */
    predicate CanSaveLocation()
      reads this
      ensures CanSaveLocation() <==> CompleteAddress(newLocation)
    {
      !(!Truthy(Get(newLocation, "name")) || !Truthy(Get(newLocation, "city")) || !Truthy(Get(newLocation, "address")))
    }
  }
}
