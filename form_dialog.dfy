/** The generic `FormDialog` (src/components/common/FormDialog.tsx): which widget each
    field becomes, what it displays, what it reports on change, and when the
    buttons are enabled. `parseFloat` is an abstract parser; numbers are integral. */
module FormDialog {
  import opened Js
  import opened Wrappers

  datatype FieldType = Text | Email | Password | Number | Select | Boolean | Textarea | Date | DatetimeLocal {
    /** The `type` string of the field, which a single-line input also receives. */
    function Code(): string {
      match this
      case Text => "text"
      case Email => "email"
      case Password => "password"
      case Number => "number"
      case Select => "select"
      case Boolean => "boolean"
      case Textarea => "textarea"
      case Date => "date"
      case DatetimeLocal => "datetime-local"
    }
  }

  datatype SelectOption = SelectOption(value: Value, text: string)

  /** A `FormField`; an absent `options` list is the empty one. */
  datatype FormField = FormField(
    key: string,
    text: string,
    ftype: FieldType,
    required: bool,
    options: seq<SelectOption>,
    placeholder: Option<string>,
    rows: Option<int>,
    disabled: bool)

  /** The widget `renderField` produces, with the props that carry computed values. */
  datatype Widget =
    | Dropdown(value: Value, items: seq<SelectOption>, disabled: bool)
    | Switch(checked: bool, disabled: bool)
    | MultilineInput(value: Value, rows: int, disabled: bool)
    | Input(inputType: string, value: Value, disabled: bool, shrink: bool)

  /** `values[field.key] || ''`. */
  function Displayed(values: Record, key: string): (v: Value)
    ensures Truthy(Get(values, key)) ==> v == Get(values, key)
    ensures !Truthy(Get(values, key)) ==> v == Str("")
  {
    Or(Get(values, key), Str(""))
  }

  /** `renderField`: a dropdown of the options for `select`, a switch for `boolean`, a multiline
      input for `textarea` (3 rows unless a truthy `rows` is given), a single-line input of the
      field's own type otherwise, with a shrunk label only for the two date types. Every widget
      is disabled exactly when the field is disabled or the dialog is loading. */
  function RenderField(field: FormField, values: Record, loading: bool): (w: Widget)
    ensures w.Dropdown? <==> field.ftype == Select
    ensures w.Switch? <==> field.ftype == Boolean
    ensures w.MultilineInput? <==> field.ftype == Textarea
    ensures w.Input? <==> field.ftype !in {Select, Boolean, Textarea}
    ensures w.disabled <==> field.disabled || loading
    ensures w.Dropdown? ==> w.items == field.options && w.value == Displayed(values, field.key)
    ensures w.Switch? ==> (w.checked <==> Truthy(Displayed(values, field.key)))
    ensures w.MultilineInput? ==>
      w.value == Displayed(values, field.key) && w.rows == (if field.rows.Some? && field.rows.value != 0 then field.rows.value else 3)
    ensures w.Input? ==>
      w.inputType == field.ftype.Code() && w.value == Displayed(values, field.key) && (w.shrink <==> field.ftype in {Date, DatetimeLocal})
  {
    var value := Displayed(values, field.key);
    var disabled := field.disabled || loading;
    match field.ftype
    case Select => Dropdown(value, field.options, disabled)
    case Boolean => Switch(Truthy(value), disabled)
    case Textarea =>
      var rows := if field.rows.Some? then Num(field.rows.value) else Undefined;
      MultilineInput(value, Or(rows, Num(3)).n, disabled)
    case _ => Input(field.ftype.Code(), value, disabled, field.ftype == Date || field.ftype == DatetimeLocal)
  }

  /** `fields.map(renderField)`: one widget per field, in order. */
  function RenderFields(fields: seq<FormField>, values: Record, loading: bool): (ws: seq<Widget>)
    ensures |ws| == |fields|
    ensures forall i :: 0 <= i < |fields| ==> ws[i] == RenderField(fields[i], values, loading)
  {
    seq(|fields|, i requires 0 <= i < |fields| => RenderField(fields[i], values, loading))
  }

  /** An input's change event: the text typed, or the switch's `checked`. */
  datatype ChangeEvent = Typed(text: string) | Toggled(checked: bool)

  /** The value a field reports through `onChange`: a `number` input reports
      `parseFloat(text) || 0`, any other input the raw text, a switch its `checked`, and a
      dropdown the chosen option value (`chosen`). */
  function Reported(field: FormField, event: ChangeEvent, chosen: Value, parseFloat: string -> Option<int>): (v: Value)
    ensures field.ftype == Select ==> v == chosen
    ensures field.ftype == Boolean && event.Toggled? ==> v == Bool(event.checked)
    ensures field.ftype == Number && event.Typed? ==>
      v == (match parseFloat(event.text) case Some(n) => Num(n) case None => Num(0))
    ensures field.ftype !in {Select, Boolean, Number} && event.Typed? ==> v == Str(event.text)
  {
    if field.ftype == Select then chosen
    else
      match event
      case Toggled(checked) => if field.ftype == Boolean then Bool(checked) else Str("")
      case Typed(text) =>
        if field.ftype == Boolean then Bool(false)
        else if field.ftype == Number then
          var parsed := match parseFloat(text) case Some(n) => Num(n) case None => Undefined;
          Or(parsed, Num(0))
        else Str(text)
  }

  /** A number input that reads 0, or text that does not parse, comes back to the dialog as
      0 and then displays as empty, since 0 is falsy. */
  lemma NumberZeroDisplaysEmpty(field: FormField, values: Record, text: string, parseFloat: string -> Option<int>)
    requires field.ftype == Number
    requires parseFloat(text).None? || parseFloat(text) == Some(0)
    ensures var v := Reported(field, Typed(text), Undefined, parseFloat);
      v == Num(0) && RenderField(field, values[field.key := v], false).value == Str("")
  {
  }

  /** Typing non-empty text into a text-like field displays exactly that text afterwards. */
  lemma TypedTextDisplays(field: FormField, values: Record, text: string)
    requires field.ftype !in {Select, Boolean, Number, Textarea}
    requires text != ""
    ensures RenderField(field, values[field.key := Reported(field, Typed(text), Undefined, (s: string) => None)], false).value == Str(text)
  {
  }

  /** The Cancel and Save buttons: both disabled exactly while loading, Save showing its
      progress caption then. Neither looks at the field values, so required fields are not
      checked before saving. */
  datatype Buttons = Buttons(cancelDisabled: bool, saveDisabled: bool, saveCaption: string)

  function DialogButtons(fields: seq<FormField>, values: Record, loading: bool): (b: Buttons)
    ensures b.cancelDisabled <==> loading
    ensures b.saveDisabled <==> loading
    ensures b.saveCaption == (if loading then "Guardando..." else "Guardar")
  {
    Buttons(loading, loading, if loading then "Guardando..." else "Guardar")
  }

  /** Save stays enabled with a required field left empty. */
  lemma SaveNotGatedOnRequired(fields: seq<FormField>, values: Record, i: nat)
    requires i < |fields| && fields[i].required && !Truthy(Get(values, fields[i].key))
    ensures !DialogButtons(fields, values, false).saveDisabled
  {
  }

  /** The error banner is shown exactly when `error` is a non-empty string. */
  function ShowsError(error: Option<string>): (shown: bool)
    ensures shown <==> error.Some? && error.value != ""
  {
    error.Some? && Truthy(Str(error.value))
  }
}
