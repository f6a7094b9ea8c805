/** JSON values as the services receive them, and how Python and JavaScript read them. */
module Json {
  import opened Wrappers
  import opened Text

  /** A decoded JSON value (numbers are integers; see README). */
  datatype Json =
    | JNull
    | JBool(b: bool)
    | JInt(i: int)
    | JStr(s: string)
    | JList(items: seq<Json>)
    | JObj(fields: map<string, Json>)

  /** Python `bool(v)`. */
  predicate PyTruthy(v: Json) {
    match v
    case JNull => false
    case JBool(b) => b
    case JInt(i) => i != 0
    case JStr(s) => s != []
    case JList(xs) => xs != []
    case JObj(m) => m != map[]
  }

  /** JavaScript `!!v`, where None is `undefined`; unlike Python, empty arrays and objects are truthy. */
  predicate JsTruthy(v: Option<Json>) {
    match v
    case None => false
    case Some(JNull) => false
    case Some(JBool(b)) => b
    case Some(JInt(i)) => i != 0
    case Some(JStr(s)) => s != []
    case Some(_) => true
  }

  /** JavaScript `String(v)` for a JSON value. */
  function JsString(v: Json): string
    decreases v
  {
    match v
    case JNull => "null"
    case JBool(b) => if b then "true" else "false"
    case JInt(i) => IntToString(i)
    case JStr(s) => s
    case JList(items) =>
      Join(seq(|items|, i requires 0 <= i < |items| => if items[i].JNull? then "" else JsString(items[i])), ",")
    case JObj(_) => "[object Object]"
  }

  /** Python `int(v)`, None where it raises: booleans are 0 and 1, strings are parsed, other kinds are refused. */
  function PyInt(v: Json): Option<int> {
    match v
    case JInt(i) => Some(i)
    case JBool(b) => Some(if b then 1 else 0)
    case JStr(s) => ParseInt(s)
    case _ => None
  }

  /** Python `int()` accepts every integer rendering it could have produced, and is the identity on integers. */
  lemma PyIntAcceptsRenderings(n: int)
    ensures PyInt(JStr(IntToString(n))) == Some(n)
    ensures PyInt(JInt(n)) == Some(n)
  {
    IntToStringRoundTrip(n);
  }
}
