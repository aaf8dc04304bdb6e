/** `LocationDialog` (src/components/LocationDialog.tsx): the "Nueva Ubicación" dialog.
    It edits one new-location record field by field, creates it through the API
    and resets it on close. The API's answer is an input of `HandleCreate`; the
    callbacks the dialog makes are returned in the order it makes them. */
module LocationDialog {
  import opened Wrappers
  import opened Js
  import opened Types
  import opened LocationForm

  /** A call the dialog makes to its parent. */
  datatype Callback = LocationCreated(location: Location) | Closed

  class LocationDialog {
    var newLocation: Record
    var creating: bool

    /** The dialog starts on the default record, not creating. */
    constructor ()
      ensures newLocation == DefaultLocation() && !creating
    {
      newLocation := DefaultLocation();
      creating := false;
    }

    /** `handleClose`: reset the record, then tell the parent; whatever was typed is lost. */
    method HandleClose() returns (callbacks: seq<Callback>)
      modifies this
      ensures newLocation == DefaultLocation() && creating == old(creating)
      ensures callbacks == [Closed]
    {
      newLocation := DefaultLocation();
      callbacks := [Closed];
    }

    /** `handleChange(field)`: only `field` changes, to the typed text, or for `capacity` to
        `parseInt(text) || 0`. */
    method HandleChange(field: string, text: string, parseInt: string -> Option<int>)
      modifies this
      ensures newLocation == old(newLocation)[field := FieldValue(field, text, parseInt)]
      ensures creating == old(creating)
    {
      var value := if field == "capacity" then CapacityValue(text, parseInt) else Str(text);
      newLocation := newLocation[field := value];
    }

    /** `handleCreate`: the current record is sent. When the API answers with the created
        location the parent gets it, then the dialog resets and closes; on an error nothing
        is reported and the typed fields stay. Either way the dialog is not creating
        afterwards. */
    method HandleCreate(response: Result<Location>) returns (sent: Record, callbacks: seq<Callback>)
      modifies this
      ensures sent == old(newLocation)
      ensures !creating
      ensures response.Ok? ==> callbacks == [LocationCreated(response.value), Closed] && newLocation == DefaultLocation()
      ensures response.Err? ==> callbacks == [] && newLocation == old(newLocation)
    {
      creating := true;
      sent := newLocation;
      callbacks := [];
      if response.Ok? {
        callbacks := callbacks + [LocationCreated(response.value)];
        var closing := HandleClose();
        callbacks := callbacks + closing;
      }
      creating := false;
    }

    /** The save button is enabled exactly when the dialog is not creating and name, city and
        address are all non-empty. */
    predicate SaveEnabled()
      reads this
      ensures SaveEnabled() <==> !creating && CompleteAddress(newLocation)
    {
      !(creating || !Truthy(Get(newLocation, "name")) || !Truthy(Get(newLocation, "city")) || !Truthy(Get(newLocation, "address")))
    }

    /** The cancel button is enabled exactly when the dialog is not creating. */
    predicate CancelEnabled()
      reads this
    {
      !creating
    }
  }

  /** A freshly opened or reset dialog cannot save until a name, a city and an address are
      typed; typing all three into it opens the gate. */
  lemma FreshDialogNeedsAddress(dialog: LocationDialog, name: string, city: string, address: string)
    requires dialog.newLocation == DefaultLocation() && !dialog.creating
    ensures !dialog.SaveEnabled()
    ensures name != "" && city != "" && address != "" ==>
      CompleteAddress(dialog.newLocation["name" := Str(name)]["city" := Str(city)]["address" := Str(address)])
  {
    DefaultsNeedAddress(name, city, address);
  }
}
