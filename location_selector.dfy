/** `LocationSelector` (src/components/LocationSelector.tsx): the location drop-down of
    the event form. It keeps no data of its own; what it reports through its two
    callbacks is the value of its handlers, in the order it makes the calls. */
module LocationSelector {
  import opened Wrappers
  import opened Js
  import opened Types
  import opened LocationForm

  /** A call to the parent: `onLocationChange(id, details?)` or `onLocationCreated(location)`. */
  datatype Report = LocationChange(id: int, details: Option<LocationDetails>) | Created(location: Location)

  /** `handleLocationChange`: the chosen id, with the name, address and city of the first
      location having it, or with no details when none has it. */
  function HandleLocationChange(locations: seq<Location>, locationId: int): (r: Report)
    ensures r.LocationChange? && r.id == locationId
    ensures r.details.None? <==> forall i :: 0 <= i < |locations| ==> locations[i].id != locationId
    ensures r.details.Some? ==>
      exists i :: 0 <= i < |locations| && locations[i].id == locationId && r.details.value == DetailsOf(locations[i])
        && forall j :: 0 <= j < i ==> locations[j].id != locationId
  {
    match FindLocation(locations, locationId)
    case Some(selected) => LocationChange(locationId, Some(DetailsOf(selected)))
    case None => LocationChange(locationId, None)
  }

  /** `handleLocationCreated`: the created location goes to the parent first, and is then
      selected with its own details. */
  function HandleLocationCreated(location: Location): (reports: seq<Report>)
    ensures |reports| == 2 && reports[0] == Created(location)
    ensures reports[1] == LocationChange(location.id, Some(DetailsOf(location)))
  {
    [Created(location), LocationChange(location.id, Some(DetailsOf(location)))]
  }

  /** Once the parent has appended a location with a new id, choosing it from the list
      reports what creating it reported. */
  lemma CreatedIsSelectable(locations: seq<Location>, location: Location)
    requires forall i :: 0 <= i < |locations| ==> locations[i].id != location.id
    ensures HandleLocationChange(locations + [location], location.id) == HandleLocationCreated(location)[1]
  {
    FindAppended(locations, location);
  }

  /** The select's `value`: `selectedLocationId || ''`, so no selection (null, or the id 0)
      shows as the empty choice. */
  function SelectValue(selectedLocationId: Option<int>): (v: Value)
    ensures selectedLocationId.Some? && selectedLocationId.value != 0 ==> v == Num(selectedLocationId.value)
    ensures selectedLocationId.None? || selectedLocationId.value == 0 ==> v == Str("")
  {
    var selected := if selectedLocationId.Some? then Num(selectedLocationId.value) else Null;
    Or(selected, Str(""))
  }
}
