/**
 * What the entity forms share: the change event of a named input, the two
 * ways the forms coerce it into a record field, the normalisation applied
 * to a record loaded for editing, and the choice between the create and the
 * update request on submit.
 */
module FormInputs {
  import opened JsValues

  /** The part of a change event the forms read: the input's `name`,
      `type`, raw `value` and, for a checkbox, `checked`. */
  datatype InputEvent = InputEvent(name: string, inputType: string, value: string, checked: bool)

  /** `{...prev, [name]: v}` */
  function SetField(prev: Object, name: string, v: Value): (r: Object)
    ensures r.Keys == prev.Keys + {name}
    ensures r[name] == v
    ensures forall k :: k in prev && k != name ==> r[k] == prev[k]
  {
    prev[name := v]
  }

  /** The coercion of the investment forms: a checkbox gives its `checked`
      state, a number input `Number(value)`, any other input its string;
      an empty number or text input gives `null`. */
  function CoerceNullable(e: InputEvent): (v: Value)
    ensures v == Null <==> e.inputType != "checkbox" && e.value == ""
    ensures e.inputType == "checkbox" ==> v == Bool(e.checked)
    ensures e.inputType == "number" && e.value != "" ==> v == Number(e.value)
    ensures e.inputType != "checkbox" && e.inputType != "number" && e.value != "" ==> v == Str(e.value)
  {
    if e.inputType == "checkbox" then Bool(e.checked)
    else if e.inputType == "number" then (if e.value == "" then Null else Number(e.value))
    else if e.value == "" then Null
    else Str(e.value)
  }

  /** The coercion of the lesson form: a checkbox gives its `checked`
      state, a number input `Number(value)` (even when empty), any other
      input its string unchanged. It never yields `null`. */
  function CoercePlain(e: InputEvent): (v: Value)
    ensures v != Null && v != Undefined
    ensures e.inputType == "checkbox" ==> v == Bool(e.checked)
    ensures e.inputType == "number" ==> v == Number(e.value)
    ensures e.inputType != "checkbox" && e.inputType != "number" ==> v == Str(e.value)
  {
    if e.inputType == "checkbox" then Bool(e.checked)
    else if e.inputType == "number" then Number(e.value)
    else Str(e.value)
  }

  /** The text a controlled input of the investment forms shows for a
      stored field: `formData.x || ""`. */
  function ShownText(v: Value): string {
    match v
    case Str(s) => s
    case _ => ""
  }

  /** Typing into a text field and reading the field back through the
      input shows exactly what was typed, the empty string included, even
      though the record holds `null` for it. */
  lemma TextFieldRoundTrip(e: InputEvent)
    requires e.inputType != "checkbox" && e.inputType != "number"
    ensures ShownText(CoerceNullable(e)) == e.value
  {
  }

  /** What a form does on submit. */
  datatype Route = Create | Update(id: string)

  /** `if (isEdit && id) update(id) else create()`: the id of an optional
      prop is truthy when it is present and non-empty. */
  function SubmitRoute(isEdit: bool, id: Option<string>): (r: Route)
    ensures r.Update? <==> isEdit && id.Some? && id.value != ""
    ensures r.Update? ==> r.id == id.value
  {
    if isEdit && id.Some? && id.value != "" then Update(id.value) else Create
  }

  /** The id the edit pages pass to the detail query: `id || ""`. */
  function DetailQueryId(id: Option<string>): (r: string)
    ensures id.Some? ==> r == id.value
    ensures r == "" <==> id.None? || id.value == ""
  {
    if id.Some? then id.value else ""
  }

  /** The record a new investment page starts from, over its copied,
      nullable and list fields: every nullable field `null`, every list
      empty, `published` true, `order` zero and any other copied field
      (the hero title) the empty string. */
  function InitialPage(copied: set<string>, nullable: set<string>, lists: set<string>): (r: Object)
    ensures r.Keys == copied + nullable + lists
    ensures forall k :: k in nullable ==> r[k] == Null
    ensures forall k :: k in lists && k !in nullable ==> r[k] == Arr([])
    ensures "published" in copied - nullable - lists ==> r["published"] == Bool(true)
    ensures "order" in copied - nullable - lists ==> r["order"] == Number("0")
    ensures forall k :: k in copied - nullable - lists && k != "published" && k != "order" ==> r[k] == Str("")
  {
    map k | k in copied + nullable + lists ::
      if k in nullable then Null
      else if k in lists then Arr([])
      else if k == "published" then Bool(true)
      else if k == "order" then Number("0")
      else Str("")
  }

  /** How a form that was opened for editing copies the loaded record:
      the fields of `copied` as they are, those of `nullable` as
      `data.x || null`, those of `lists` as `data.x || []`. */
  function Normalise(data: Object, copied: set<string>, nullable: set<string>, lists: set<string>): (r: Object)
    ensures r.Keys == copied + nullable + lists
    ensures forall k :: k in copied ==> r[k] == Get(data, k)
    ensures forall k :: k in nullable && k !in copied ==>
      (r[k] == Null <==> !Truthy(Get(data, k)))
    ensures forall k :: k in nullable && k !in copied && Truthy(Get(data, k)) ==> r[k] == Get(data, k)
    ensures forall k :: k in lists && k !in copied && k !in nullable ==>
      r[k] == (if Truthy(Get(data, k)) then Get(data, k) else Arr([]))
  {
    map k | k in copied + nullable + lists ::
      if k in copied then Get(data, k)
      else if k in nullable then Or(Get(data, k), Null)
      else Or(Get(data, k), Arr([]))
  }
}
