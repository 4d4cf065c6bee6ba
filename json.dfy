/**
 * JSON values as `encoding/json` produces them from the client's records.
 * An object is modelled by its members; the order Go writes them in is not.
 */
module Json {
  import opened Wrappers

  datatype Json =
    | JNull
    | JBool(b: bool)
    | JInt(i: int)
    | JStr(s: string)
    | JArr(items: seq<Json>)
    | JObj(members: map<string, Json>)

  /** The object holds member `key`. */
  predicate HasKey(j: Json, key: string) {
    j.JObj? && key in j.members
  }

  /** A pointer member: `omitempty` drops it exactly when the pointer is nil. */
  function StrJson(v: Option<string>): (r: Option<Json>)
    ensures r.Some? <==> v.Some?
    ensures v.Some? ==> r.value == JStr(v.value)
  {
    if v.Some? then Some(JStr(v.value)) else None
  }

  function IntJson(v: Option<int>): (r: Option<Json>)
    ensures r.Some? <==> v.Some?
    ensures v.Some? ==> r.value == JInt(v.value)
  {
    if v.Some? then Some(JInt(v.value)) else None
  }

  function BoolJson(v: Option<bool>): (r: Option<Json>)
    ensures r.Some? <==> v.Some?
    ensures v.Some? ==> r.value == JBool(v.value)
  {
    if v.Some? then Some(JBool(v.value)) else None
  }

  // Reading members back the way `json.Unmarshal` fills a struct field whose
  // key matches exactly: a missing key or `null` leaves the zero value (nil for
  // a pointer), a value of another type is an error (None).

  function ReadStr(m: map<string, Json>, key: string): Option<string> {
    if key !in m then Some("")
    else match m[key]
      case JNull => Some("")
      case JStr(s) => Some(s)
      case _ => None
  }

  function ReadBool(m: map<string, Json>, key: string): Option<bool> {
    if key !in m then Some(false)
    else match m[key]
      case JNull => Some(false)
      case JBool(b) => Some(b)
      case _ => None
  }

  function ReadOptStr(m: map<string, Json>, key: string): Option<Option<string>> {
    if key !in m then Some(None)
    else match m[key]
      case JNull => Some(None)
      case JStr(s) => Some(Some(s))
      case _ => None
  }

  function ReadOptInt(m: map<string, Json>, key: string): Option<Option<int>> {
    if key !in m then Some(None)
    else match m[key]
      case JNull => Some(None)
      case JInt(i) => Some(Some(i))
      case _ => None
  }

  function ReadOptBool(m: map<string, Json>, key: string): Option<Option<bool>> {
    if key !in m then Some(None)
    else match m[key]
      case JNull => Some(None)
      case JBool(b) => Some(Some(b))
      case _ => None
  }
}
