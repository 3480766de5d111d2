/** JSON documents as the dashboard and the voice app parse them, with the
    JavaScript coercions the dashboard applies to them. */
module JsonValue {
  import opened Options
  import opened Text

  /** A parsed JSON value. Numbers are exact reals. */
  datatype Json =
    | JNull
    | JBool(b: bool)
    | JNum(n: real)
    | JStr(s: string)
    | JArr(items: seq<Json>)
    | JObj(fields: map<string, Json>)

  /** How reading and parsing a JSON file ended. */
  datatype FileRead =
    | Missing                  // the file does not exist
    | Unreadable(reason: string) // it exists but reading or parsing raised
    | Parsed(doc: Json)

  /** `v.name` in JavaScript, for a `v` that is neither null nor undefined
      and a `name` that is a data property (none of the names the dashboard
      reads is a built-in property of strings or arrays). `None` stands for
      `undefined`. */
  function Property(v: Json, name: string): (r: Option<Json>)
    ensures r.Some? <==> v.JObj? && name in v.fields
  {
    if v.JObj? && name in v.fields then Some(v.fields[name]) else None
  }

  /** `v?.name`: undefined when `v` is null or undefined. */
  function OptionalProperty(v: Option<Json>, name: string): (r: Option<Json>)
    ensures r.Some? ==> v.Some? && v.value.JObj?
  {
    match v
    case None => None
    case Some(j) => Property(j, name)
  }

  /** `v?.[0]`: the first element of an array, the first character of a
      string, the property named "0" of an object, undefined otherwise. */
  function OptionalFirst(v: Option<Json>): (r: Option<Json>)
    ensures r.Some? ==> v.Some? && (v.value.JArr? || v.value.JStr? || v.value.JObj?)
    ensures v.Some? && v.value.JArr? ==> (r.Some? <==> v.value.items != [])
    ensures v.Some? && v.value.JObj? ==> r == Property(v.value, "0")
    ensures v.Some? && v.value.JArr? && v.value.items != [] ==> r == Some(v.value.items[0])
    ensures v.Some? && v.value.JStr? ==> (r.Some? <==> v.value.s != "")
    ensures v.Some? && v.value.JStr? && v.value.s != "" ==> r == Some(JStr([v.value.s[0]]))
  {
    match v
    case Some(JArr(items)) => if items == [] then None else Some(items[0])
    case Some(JStr(s)) => if s == "" then None else Some(JStr([s[0]]))
    case Some(JObj(fields)) => Property(v.value, "0")
    case _ => None
  }

  /** JavaScript truthiness of a value; `None` is `undefined`. */
  predicate Truthy(v: Option<Json>) {
    match v
    case None => false
    case Some(JNull) => false
    case Some(JBool(b)) => b
    case Some(JNum(n)) => n != 0.0
    case Some(JStr(s)) => s != ""
    case Some(_) => true
  }

  /** JavaScript's ToNumber as a relational operator applies it; `None` is
      NaN, which makes every comparison false. */
  function ToNumber(v: Option<Json>): (r: Option<real>)
    ensures v == Some(JNull) ==> r == Some(0.0)
    ensures v.None? ==> r.None?
  {
    match v
    case None => None
    case Some(JNull) => Some(0.0)
    case Some(JBool(b)) => Some(if b then 1.0 else 0.0)
    case Some(JNum(n)) => Some(n)
    case Some(JStr(s)) => StringToNumber(s)
    case Some(JArr(items)) => if items == [] then Some(0.0) else None
    case Some(JObj(_)) => None
  }

  /** A string read as a number: blank is 0, an optionally signed decimal
      integer is its value, anything else is NaN here. */
  function StringToNumber(s: string): (r: Option<real>)
    ensures JsBlank(s) ==> r == Some(0.0)
  {
    var t := Trim(s);
    TrimShape(s);
    if t == "" then Some(0.0)
    else if t[0] == '-' || t[0] == '+' then
      match ParseDecimal(t[1..])
      case Some(n) => Some(if t[0] == '-' then -(n as real) else n as real)
      case None => None
    else
      match ParseDecimal(t)
      case Some(n) => Some(n as real)
      case None => None
  }
}
