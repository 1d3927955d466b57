/**
 * The few pieces of JavaScript value semantics the server relies on:
 * JSON-shaped values (plus `undefined`), truthiness, property reads that
 * throw on `null`/`undefined`, `String(v)` as used by template literals,
 * and `String.prototype.toLowerCase` restricted to ASCII letters.
 */
module Js {
  import opened Wrappers

  /** A value produced by `JSON.parse`, or `undefined` for a missing property. */
  datatype Json =
    | Undefined
    | Null
    | Bool(b: bool)
    | Num(n: real)
    | Str(s: string)
    | Arr(items: seq<Json>)
    | Obj(fields: map<string, Json>)

  /** Every error a turn can end with; all of them become the same HTTP 500 body. */
  datatype Error =
    | ClassifierUnavailable   // the emotion-classifier request failed
    | ExtractorUnavailable    // the disclosure-extraction completion request failed
    | GeneratorUnavailable    // the reply-generation completion request failed
    | TypeError               // a property was read from `null` or `undefined`
    | ForeignKeyViolation     // a message named a conversation that does not exist
    | NotNullViolation        // a required column was given `null`

  /** `v.key`: throws on `null` and `undefined`, yields `undefined` on primitives and missing keys. */
  function GetProp(v: Json, key: string): (r: Result<Json, Error>)
    ensures r.Failure? <==> v.Undefined? || v.Null?
    ensures r.Failure? ==> r.error == TypeError
    ensures v.Obj? && key in v.fields ==> r == Success(v.fields[key])
    ensures v.Obj? && key !in v.fields ==> r == Success(Undefined)
  {
    match v
    case Undefined => Failure(TypeError)
    case Null => Failure(TypeError)
    case Obj(fields) => Success(if key in fields then fields[key] else Undefined)
    case _ => Success(Undefined)
  }

  /** `String(v)`, which is what `${v}` in a template literal produces. Number formatting is a parameter. */
  function Render(v: Json, numberText: real -> string): string
    decreases v, 1
  {
    match v
    case Undefined => "undefined"
    case Null => "null"
    case Bool(b) => if b then "true" else "false"
    case Num(n) => numberText(n)
    case Str(s) => s
    case Arr(items) => RenderItems(v, items, numberText)
    case Obj(_) => "[object Object]"
  }

  /** `Array.prototype.join(",")`, where `null` and `undefined` elements become empty. */
  function RenderItems(parent: Json, items: seq<Json>, numberText: real -> string): string
    requires forall i :: 0 <= i < |items| ==> items[i] < parent
    decreases parent, 0, |items|
  {
    if items == [] then ""
    else
      var head := if items[0].Undefined? || items[0].Null? then "" else Render(items[0], numberText);
      if |items| == 1 then head else head + "," + RenderItems(parent, items[1..], numberText)
  }

  /**
   * What a template literal prints for JavaScript's values: `${undefined}`,
   * `${null}`, a nested array with holes and an object.
   */
  lemma RenderAsJavaScript(nt: real -> string)
    ensures Render(Undefined, nt) == "undefined" && Render(Null, nt) == "null"
    ensures Render(Bool(false), nt) == "false"
    ensures Render(Arr([Null, Str("a"), Undefined]), nt) == ",a,"
    ensures Render(Arr([Str("a"), Arr([Str("b"), Str("c")])]), nt) == "a,b,c"
    ensures Render(Arr([]), nt) == ""
    ensures Render(Obj(map[]), nt) == "[object Object]"
  {
    var inner := Arr([Str("b"), Str("c")]);
    assert Render(inner, nt) == "b,c";
  }

  /** `String.prototype.toLowerCase` on one character; only ASCII letters are mapped. */
  function LowerChar(c: char): (r: char)
    ensures 'A' <= c <= 'Z' ==> 'a' <= r <= 'z' && r as int == c as int + 32
    ensures !('A' <= c <= 'Z') ==> r == c
  {
    if 'A' <= c <= 'Z' then (c as int + 32) as char else c
  }

  function ToLower(s: string): (r: string)
    ensures |r| == |s|
    ensures forall i :: 0 <= i < |s| ==> r[i] == LowerChar(s[i])
  {
    if s == [] then [] else [LowerChar(s[0])] + ToLower(s[1..])
  }

  predicate IsLower(s: string) {
    forall i :: 0 <= i < |s| ==> !('A' <= s[i] <= 'Z')
  }

  /** Lower-casing leaves no upper-case letter behind and is therefore idempotent. */
  lemma ToLowerIsLowerAndIdempotent(s: string)
    ensures IsLower(ToLower(s))
    ensures ToLower(ToLower(s)) == ToLower(s)
  {
  }

  /** A string without upper-case letters is its own lower-case form. */
  lemma LowerStringIsFixed(s: string)
    requires IsLower(s)
    ensures ToLower(s) == s
  {
  }
}
