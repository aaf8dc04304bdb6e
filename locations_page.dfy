/** The locations page (src/pages/Locations.tsx): its form fields, the record
    `handleCreate` starts from, the capacity default of its save payload, its
    columns, and what its `loadData` stores. */
module LocationsPage {
  import opened Js
  import opened Wrappers
  import FormDialog
  import Pages

  const LocationFields: seq<FormDialog.FormField> := [
    FormDialog.FormField("name", "Nombre", FormDialog.Text, true, [], None, None, false),
    FormDialog.FormField("address", "Dirección", FormDialog.Text, true, [], None, None, false),
    FormDialog.FormField("city", "Ciudad", FormDialog.Text, true, [], None, None, false),
    FormDialog.FormField("postal_code", "Código Postal", FormDialog.Text, false, [], None, None, false),
    FormDialog.FormField("capacity", "Capacidad", FormDialog.Number, false, [], None, None, false),
    FormDialog.FormField("contact_email", "Email de Contacto", FormDialog.Email, false, [], None, None, false),
    FormDialog.FormField("contact_phone", "Teléfono", FormDialog.Text, false, [], None, None, false),
    FormDialog.FormField("website", "Sitio Web", FormDialog.Text, false, [], None, None, false),
    FormDialog.FormField("notes", "Notas", FormDialog.Textarea, false, [], None, None, false)]

  /** `handleCreate`'s record: every text field empty and capacity 0. */
  function CreateDefaults(): (form: Record)
    ensures form.Keys == {"name", "address", "city", "postal_code", "capacity", "contact_email", "contact_phone", "website", "notes"}
    ensures form["capacity"] == Num(0)
    ensures forall k :: k in form && k != "capacity" ==> form[k] == Str("")
  {
    map["name" := Str(""), "address" := Str(""), "city" := Str(""), "postal_code" := Str(""),
        "capacity" := Num(0), "contact_email" := Str(""), "contact_phone" := Str(""),
        "website" := Str(""), "notes" := Str("")]
  }

  /** Every field of the form has an entry in the record it starts from. */
  lemma DefaultsCoverFields()
    ensures forall i :: 0 <= i < |LocationFields| ==> LocationFields[i].key in CreateDefaults()
  {
  }

  /** The save payload `{ ...formData, capacity: formData.capacity || 0 }`. */
  function Payload(form: Record): (payload: Record)
    ensures payload.Keys == form.Keys + {"capacity"}
    ensures !Truthy(Get(form, "capacity")) ==> payload["capacity"] == Num(0)
    ensures Truthy(Get(form, "capacity")) ==> payload["capacity"] == form["capacity"]
    ensures forall k :: k in form && k != "capacity" ==> payload[k] == form[k]
  {
    form["capacity" := Or(Get(form, "capacity"), Num(0))]
  }

  /** The payload always carries a truthy capacity or the number 0. */
  lemma PayloadCapacity(form: Record)
    ensures var c := Payload(form)["capacity"]; Truthy(c) || c == Num(0)
  {
  }

  /** The address column, `${value}, ${row.city}`. */
  function AddressCell(value: Value, row: Record): string
  {
    ToJsString(value) + ", " + ToJsString(Get(row, "city"))
  }

  /** The capacity column: `<n> personas` as a chip when the capacity is truthy, else `-`. */
  function CapacityCell(value: Value): (cell: Pages.Cell)
    ensures !Truthy(value) <==> cell == Pages.Text("-")
    ensures value.Num? && value.n != 0 ==> cell == Pages.Chip(IntToString(value.n) + " personas", "primary")
  {
    if Truthy(value) then Pages.Chip(ToJsString(value) + " personas", "primary") else Pages.Text("-")
  }

  /** The contact column: the truthy ones of the email and the phone, in that order, pushed onto
      a list and joined with ` • `, or `-` when there are none. */
  method ContactCell(value: Value, row: Record) returns (text: string)
    ensures !Truthy(value) && !Truthy(Get(row, "contact_phone")) ==> text == "-"
    ensures Truthy(value) && !Truthy(Get(row, "contact_phone")) ==> text == ToJsString(value)
    ensures !Truthy(value) && Truthy(Get(row, "contact_phone")) ==> text == ToJsString(Get(row, "contact_phone"))
    ensures Truthy(value) && Truthy(Get(row, "contact_phone")) ==>
      text == ToJsString(value) + " • " + ToJsString(Get(row, "contact_phone"))
  {
    var contacts: seq<string> := [];
    if Truthy(value) {
      contacts := contacts + [ToJsString(value)];
    }
    if Truthy(Get(row, "contact_phone")) {
      contacts := contacts + [ToJsString(Get(row, "contact_phone"))];
    }
    if |contacts| == 2 {
      assert Join(contacts[1..], " • ") == contacts[1];
    }
    text := if |contacts| > 0 then Join(contacts, " • ") else "-";
  }

  /** `loadData`: as on the themes page. */
  function Load(data: Value): (r: Result<Pages.Loaded>)
    ensures r.Ok? <==> Pages.ListRows(data).Ok? && Pages.ListCount(data).Ok?
    ensures r.Ok? ==> r.value.rows == Pages.ListRows(data).value && r.value.totalCount == Pages.ListCount(data).value
    ensures r.Ok? ==> r.value.themes.None? && r.value.locations.None? && r.value.repertoires.None?
  {
    match Pages.ListRows(data)
    case Err(e) => Err(e)
    case Ok(rows) =>
      match Pages.ListCount(data)
      case Err(e) => Err(e)
      case Ok(count) => Ok(Pages.Loaded(rows, count, None, None, None))
  }
}
