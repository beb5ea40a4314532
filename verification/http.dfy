/**
 The parts of `fetch` and of JavaScript values that the client code relies on: a decoded
 JSON body, optional chaining on it (`json?.field`), truthiness (`x || fallback`), the
 conversion `String(x)` that `new Error(x)` applies to its argument, and `Response.ok`.
*/
module Http {
  import opened Wrappers
  import opened Text

  /** A decoded JSON value. Numbers are whole numbers here. */
  datatype Json =
    | JNull
    | JBool(b: bool)
    | JNumber(n: int)
    | JString(s: string)
    | JArray(items: seq<Json>)
    | JObject(fields: map<string, Json>)

  /** How a request ended: the promise rejected (network failure, a body that is not
      JSON, ...) with an error message, or the server answered with a status and a body. */
  datatype Outcome = Threw(message: string) | Answered(status: int, body: Json)

  /** `Response.ok`. */
  predicate Ok(status: int) {
    200 <= status <= 299
  }

  /** `j?.name`: the member of an object; anything else has no such member. */
  function Field(j: Json, name: string): (v: Option<Json>)
    ensures v.Some? <==> j.JObject? && name in j.fields
    ensures v.Some? ==> v.value == j.fields[name]
  {
    if j.JObject? && name in j.fields then Some(j.fields[name]) else None
  }

  /** `Boolean(v)` for a JSON value; a missing member is `undefined`, which is falsy. */
  predicate Truthy(v: Option<Json>) {
    match v
    case None => false
    case Some(JNull) => false
    case Some(JBool(b)) => b
    case Some(JNumber(n)) => n != 0
    case Some(JString(s)) => s != []
    case Some(JArray(_)) => true
    case Some(JObject(_)) => true
  }

  /** `String(n)` for a whole number. */
  function NumberString(n: int): (s: string)
    ensures s != []
  {
    if n >= 0 then DecimalString(n) else "-" + DecimalString(-n)
  }

  /** `String(v)`. An array prints its elements joined by "," with `null` as the empty
      string; every object prints as "[object Object]". */
  function JsString(v: Json): string
    decreases v, 1
  {
    match v
    case JNull => "null"
    case JBool(b) => if b then "true" else "false"
    case JNumber(n) => NumberString(n)
    case JString(s) => s
    case JArray(xs) => Join(ElementStrings(v, xs), ",")
    case JObject(_) => "[object Object]"
  }

  /** The printed elements of the array `parent`, whose elements end with `xs`. */
  function ElementStrings(parent: Json, xs: seq<Json>): (r: seq<string>)
    requires forall i :: 0 <= i < |xs| ==> xs[i] < parent
    ensures |r| == |xs|
    decreases parent, 0, |xs|
  {
    if xs == [] then []
    else
      var last := xs[|xs| - 1];
      ElementStrings(parent, xs[..|xs| - 1]) + [if last.JNull? then "" else JsString(last)]
  }

  /** The message of `new Error(v)`: `String(v)`, or "" when `v` is `undefined`. */
  function ErrorMessage(v: Option<Json>): string {
    match v
    case None => ""
    case Some(j) => JsString(j)
  }

  /** A truthy value can still print as "": an empty array. */
  lemma EmptyArrayPrintsEmpty()
    ensures Truthy(Some(JArray([]))) && ErrorMessage(Some(JArray([]))) == ""
  {
    assert ElementStrings(JArray([]), []) == [];
  }
}
