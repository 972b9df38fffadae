/**
 * The JavaScript values the admin console moves between its forms, its
 * hooks and the REST backend. A JS object is a finite map from property
 * names to values; an absent property reads as `undefined`.
 */
module JsValues {

  datatype Option<+T> = None | Some(value: T)

  /** A JavaScript value. `Number(text)` stands for the number that JS's
      `Number(text)` yields; the parse itself is not modelled. */
  datatype Value =
    | Undefined
    | Null
    | Bool(b: bool)
    | Str(s: string)
    | Number(text: string)
    | Arr(elems: seq<Value>)
    | Obj(fields: map<string, Value>)

  /** A plain JS object, as spread and indexed by the forms. */
  type Object = map<string, Value>

  /** `obj[key]`: an absent property reads as `undefined`. */
  function Get(obj: Object, key: string): (v: Value)
  {
    if key in obj then obj[key] else Undefined
  }

  /** JavaScript truthiness. Strings, booleans, `null` and `undefined` follow
      the language; arrays and objects are truthy; a `Number` is taken to be
      truthy, since no path of the model tests the truth of a number. */
  predicate Truthy(v: Value) {
    match v
    case Undefined => false
    case Null => false
    case Bool(b) => b
    case Str(s) => s != ""
    case Number(_) => true
    case Arr(_) => true
    case Obj(_) => true
  }

  /** `v || fallback` */
  function Or(v: Value, fallback: Value): (r: Value)
  {
    if Truthy(v) then v else fallback
  }

  /** The properties that `{...v}` copies from an object; `null`,
      `undefined`, booleans and numbers contribute none. (Spreading a string
      or an array would copy its indices; no list element of the model is
      one, and this model copies nothing for them.) */
  function SpreadOf(v: Value): (m: Object)
  {
    if v.Obj? then v.fields else map[]
  }

  /** How `Array.prototype.join` writes one element: a string as it is,
      `null` and `undefined` as nothing, a boolean as its word, a number
      by its text. (An element that is itself an array or an object is
      written as nothing here; no keyword list of the model holds one.) */
  function JoinPiece(v: Value): string {
    match v
    case Str(s) => s
    case Bool(b) => if b then "true" else "false"
    case Number(text) => text
    case _ => ""
  }

  /** `Array.isArray(v) ? v : []` */
  function ElemsIfArray(v: Value): seq<Value> {
    if v.Arr? then v.elems else []
  }

  /** What `join` prints for each element of an array value; nothing for
      any other value. */
  function ElemTexts(v: Value): (texts: seq<string>)
    ensures |texts| == |ElemsIfArray(v)|
    ensures forall i :: 0 <= i < |texts| ==> texts[i] == JoinPiece(ElemsIfArray(v)[i])
  {
    var elems := ElemsIfArray(v);
    seq(|elems|, i requires 0 <= i < |elems| => JoinPiece(elems[i]))
  }

  /** An array of strings prints as those strings. */
  lemma ElemTextsOfStringArray(ss: seq<string>)
    ensures ElemTexts(StringArray(ss)) == ss
  {
    var texts := ElemTexts(StringArray(ss));
    forall i | 0 <= i < |ss| ensures texts[i] == ss[i] {
      assert StringArray(ss).elems[i] == Str(ss[i]);
    }
  }

  /** An array of strings, as the forms store keyword lists. */
  function StringArray(ss: seq<string>): (v: Value)
    ensures v.Arr? && |v.elems| == |ss|
    ensures forall i :: 0 <= i < |ss| ==> v.elems[i] == Str(ss[i])
  {
    Arr(seq(|ss|, i requires 0 <= i < |ss| => Str(ss[i])))
  }
}
