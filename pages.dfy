/** What the five resource pages under src/pages/ compute alike: the
    normalisation of a list response, the per-key form update, the injection
    of select options into a field list, the cell contents of their columns,
    and the request a save makes. Rows and forms are untyped records there
    (`Record<string, any>`), so they are `Js.Record`s here. */
module Pages {
  import opened Js
  import opened Wrappers
  import FormDialog

  /** `data.key` on a response: a TypeError on `null`/`undefined`, the member of an object,
      and `undefined` for any other value. */
  function Member(data: Value, key: string): (r: Result<Value>)
    ensures r.Err? <==> IsNullish(data)
    ensures data.Obj? ==> r == Ok(Get(data.fields, key))
  {
    if IsNullish(data) then Err("TypeError: cannot read '" + key + "'")
    else if data.Obj? then Ok(Get(data.fields, key))
    else Ok(Undefined)
  }

  /** A list value whose elements are all records, as those records. */
  function AsRecords(v: Value): (r: Result<seq<Record>>)
    ensures r.Ok? <==> v.Arr? && forall i :: 0 <= i < |v.items| ==> v.items[i].Obj?
    ensures r.Ok? ==> |r.value| == |v.items| && forall i :: 0 <= i < |r.value| ==> v.items[i] == Obj(r.value[i])
  {
    if v.Arr? && forall i :: 0 <= i < |v.items| ==> v.items[i].Obj? then
      Ok(seq(|v.items|, i requires 0 <= i < |v.items| => v.items[i].fields))
    else Err("not a list of records")
  }

  /** `Array.isArray(data) ? data : data.results || []`. */
  function ListRows(data: Value): (r: Result<seq<Record>>)
    ensures data.Arr? ==> r == AsRecords(data)
    ensures data.Obj? && !Truthy(Get(data.fields, "results")) ==> r == Ok([])
    ensures data.Obj? && Truthy(Get(data.fields, "results")) ==> r == AsRecords(Get(data.fields, "results"))
    ensures IsNullish(data) ==> r.Err?
  {
    if data.Arr? then AsRecords(data) else EnvelopeRows(data)
  }

  /** `data.results || []`, without the array test (the events page). */
  function EnvelopeRows(data: Value): (r: Result<seq<Record>>)
    ensures IsNullish(data) ==> r.Err?
    ensures !data.Obj? && !IsNullish(data) ==> r == Ok([])
    ensures data.Obj? ==> r == AsRecords(Or(Get(data.fields, "results"), Arr([])))
  {
    match Member(data, "results")
    case Err(e) => Err(e)
    case Ok(results) => AsRecords(Or(results, Arr([])))
  }

  /** `data.count || 0`; a count that is not a number is not modelled and reads as a failure. */
  function EnvelopeCount(data: Value): (r: Result<int>)
    ensures IsNullish(data) ==> r.Err?
    ensures data.Obj? && Get(data.fields, "count").Num? ==> r == Ok(Get(data.fields, "count").n)
    ensures data.Obj? && !Truthy(Get(data.fields, "count")) ==> r == Ok(0)
    ensures !data.Obj? && !IsNullish(data) ==> r == Ok(0)
  {
    match Member(data, "count")
    case Err(e) => Err(e)
    case Ok(count) =>
      match Or(count, Num(0))
      case Num(n) => Ok(n)
      case _ => Err("count is not a number")
  }

  /** `Array.isArray(data) ? data.length : data.count || 0`. */
  function ListCount(data: Value): (r: Result<int>)
    ensures data.Arr? ==> r == Ok(|data.items|)
    ensures !data.Arr? ==> r == EnvelopeCount(data)
  {
    if data.Arr? then Ok(|data.items|) else EnvelopeCount(data)
  }

  /** For a bare list the count is the number of rows. */
  lemma BareListCount(data: Value)
    requires data.Arr? && ListRows(data).Ok?
    ensures ListCount(data) == Ok(|ListRows(data).value|)
  {
  }

  /** The events page reads `results` even of a bare list, where there is none: no rows. */
  lemma BareListHasNoEnvelopeRows(items: seq<Value>)
    ensures EnvelopeRows(Arr(items)) == Ok([]) && EnvelopeCount(Arr(items)) == Ok(0)
  {
  }

  /** `handleFormChange(key, value)`: `{ ...prev, [key]: value }`. */
  function FormChange(form: Record, key: string, value: Value): (r: Record)
    ensures Get(r, key) == value
    ensures forall k :: k in form && k != key ==> k in r && r[k] == form[k]
    ensures r.Keys == form.Keys + {key}
  {
    form[key := value]
  }

  /** `fields.map(f => f.key === key ? { ...f, options } : f)`: only the field with that key gets
      the options, every field keeps its place and everything else. */
  function InjectOptions(fields: seq<FormDialog.FormField>, key: string, options: seq<FormDialog.SelectOption>)
    : (r: seq<FormDialog.FormField>)
    ensures |r| == |fields|
    ensures forall i :: 0 <= i < |fields| && fields[i].key == key ==> r[i] == fields[i].(options := options)
    ensures forall i :: 0 <= i < |fields| && fields[i].key != key ==> r[i] == fields[i]
  {
    seq(|fields|, i requires 0 <= i < |fields| => if fields[i].key == key then fields[i].(options := options) else fields[i])
  }

  /** Injecting options for a key no field has changes nothing. */
  lemma {:induction false} InjectAbsentKey(fields: seq<FormDialog.FormField>, key: string, options: seq<FormDialog.SelectOption>)
    requires forall i :: 0 <= i < |fields| ==> fields[i].key != key
    ensures InjectOptions(fields, key, options) == fields
  {
    assert forall i :: 0 <= i < |fields| ==> InjectOptions(fields, key, options)[i] == fields[i];
  }

  /** What a column renderer shows: text, or a chip with a caption and a colour. */
  datatype Cell = Text(text: string) | Chip(caption: string, color: string)

  /** `value > 0` for the values a count column holds; other values compare false here. */
  predicate Positive(v: Value) {
    v.Num? && v.n > 0
  }

  /** A count chip, `label={value || 0}` coloured `positiveColor` when `value > 0`. */
  function CountChip(value: Value, positiveColor: string): (cell: Cell)
    ensures cell.Chip?
    ensures !Truthy(value) ==> cell.caption == "0" && cell.color == "default"
    ensures value.Num? ==> cell.caption == IntToString(value.n)
    ensures cell.color == (if Positive(value) then positiveColor else "default")
  {
    Chip(ToJsString(Or(value, Num(0))), if Positive(value) then positiveColor else "default")
  }

  /** The request a save makes: update of the record being edited, or create. */
  datatype SaveCall = Create(payload: Record) | Update(id: Value, payload: Record)

  /** What a successful `loadData` stores: the rows, the count, and the lists a page loads beside
      them for its select options (`None` where the page loads no such list). */
  datatype Loaded = Loaded(
    rows: seq<Record>, totalCount: int,
    themes: Option<seq<Record>>, locations: Option<seq<Record>>, repertoires: Option<seq<Record>>)
}
