/** The new-location record that `LocationDialog` (src/components/LocationDialog.tsx)
    and the inline dialog of `EventDetailOriginal` edit, the `find` both
    location selectors do, and the details an event keeps of a location. The
    record is a `Js.Record`, as `Partial<Location>` is in the source. */
module LocationForm {
  import opened Wrappers
  import opened Js
  import opened Types

  /** The keys a user types into besides the contact fields. */
  const CoreKeys: set<string> := {"name", "address", "city", "country", "capacity", "is_active"}

  /** The optional contact keys, shown as `value || ''`. */
  const ContactKeys: set<string> := {"contact_email", "contact_phone", "website", "notes"}

  /** The record the dialog starts with and returns to: empty text, Argentina, a capacity of
      100 and active. */
  function DefaultLocation(): (r: Record)
    ensures r.Keys == CoreKeys + ContactKeys
  {
    map["name" := Str(""), "address" := Str(""), "city" := Str(""), "country" := Str("Argentina"),
        "capacity" := Num(100), "contact_email" := Str(""), "contact_phone" := Str(""),
        "website" := Str(""), "notes" := Str(""), "is_active" := Bool(true)]
  }

  /** The same defaults without the contact keys, which is what `handleCreateLocation` of
      `EventDetailOriginal` resets to. */
  function CoreDefaults(): (r: Record)
    ensures r.Keys == CoreKeys
  {
    map["name" := Str(""), "address" := Str(""), "city" := Str(""), "country" := Str("Argentina"),
        "capacity" := Num(100), "is_active" := Bool(true)]
  }

  /** The two resets look the same in the dialog: the core fields hold the same value and
      every contact field displays as empty, present or not. */
  lemma CoreDefaultsDisplayAsDefault(key: string)
    ensures key in CoreKeys ==> Get(CoreDefaults(), key) == Get(DefaultLocation(), key)
    ensures key in ContactKeys ==> Or(Get(CoreDefaults(), key), Str("")) == Or(Get(DefaultLocation(), key), Str(""))
    ensures key in ContactKeys ==> Or(Get(CoreDefaults(), key), Str("")) == Str("")
  {
  }

  /** `parseInt(text) || 0`: the parsed integer, or 0 when the text does not parse (NaN is
      falsy). `parseInt` is an input, `None` standing for NaN. */
  function CapacityValue(text: string, parseInt: string -> Option<int>): (v: Value)
    ensures v.Num?
    ensures parseInt(text).Some? ==> v == Num(parseInt(text).value)
    ensures parseInt(text).None? ==> v == Num(0)
  {
    var parsed := match parseInt(text) case Some(n) => Num(n) case None => Undefined;
    Or(parsed, Num(0))
  }

  /** The value a change of `field` stores: the text, except for `capacity`. */
  function FieldValue(field: string, text: string, parseInt: string -> Option<int>): (v: Value)
    ensures field == "capacity" ==> v == CapacityValue(text, parseInt)
    ensures field != "capacity" ==> v == Str(text)
  {
    if field == "capacity" then CapacityValue(text, parseInt) else Str(text)
  }

  /** The save button's gate on the record: name, city and address are all non-empty. */
  predicate CompleteAddress(location: Record) {
    Truthy(Get(location, "name")) && Truthy(Get(location, "city")) && Truthy(Get(location, "address"))
  }

  /** Neither reset can be saved as it stands, and typing a name, a city and an address into
      it opens the gate whatever else is entered. */
  lemma DefaultsNeedAddress(name: string, city: string, address: string)
    ensures !CompleteAddress(DefaultLocation()) && !CompleteAddress(CoreDefaults())
    ensures name != "" && city != "" && address != "" ==>
      CompleteAddress(DefaultLocation()["name" := Str(name)]["city" := Str(city)]["address" := Str(address)])
  {
  }

  /** `locations.find(loc => loc.id === id)`: the first location with that id. */
  function FindLocation(locations: seq<Location>, id: int): (r: Option<Location>)
    ensures r.None? <==> forall i :: 0 <= i < |locations| ==> locations[i].id != id
    ensures r.Some? ==>
      exists i :: 0 <= i < |locations| && locations[i] == r.value && r.value.id == id
        && forall j :: 0 <= j < i ==> locations[j].id != id
    decreases |locations|
  {
    if |locations| == 0 then None
    else if locations[0].id == id then Some(locations[0])
    else
      FindLocation(locations[1..], id)
  }

  /** Appending a location whose id no loaded location has makes `find` return it. */
  lemma {:induction false} FindAppended(locations: seq<Location>, location: Location)
    requires forall i :: 0 <= i < |locations| ==> locations[i].id != location.id
    ensures FindLocation(locations + [location], location.id) == Some(location)
    decreases |locations|
  {
    if |locations| > 0 {
      assert (locations + [location])[1..] == locations[1..] + [location];
      FindAppended(locations[1..], location);
    }
  }

  /** The `{ name, address, city }` an event keeps of a location. */
  function DetailsOf(l: Location): LocationDetails {
    LocationDetails(l.name, l.address, l.city)
  }
}
