/** What travels between the browser and the server: JSON values, JSON
    objects (request bodies, server rows, the cached session) and HTTP
    requests addressed to the profile API. */
module Wire {
  import opened Wrappers

  /** A JSON value as this application uses it: every stored field is a
      string or null. */
  datatype Value = Null | Str(s: string)

  /** A JSON object: own keys mapped to values. A key that is not in the map
      reads as `undefined`, which is different from a key holding `null`. */
  type Object = map<string, Value>

  /** `obj[key]`: None stands for `undefined`. */
  function Field(obj: Object, key: string): (f: Option<Value>)
    ensures f.Some? <==> key in obj
    ensures f.Some? ==> f.value == obj[key]
  {
    if key in obj then Some(obj[key]) else None
  }

  /** JavaScript truthiness of a field: only a non-empty string is truthy
      (`undefined`, `null` and `""` are falsy). */
  predicate Truthy(f: Option<Value>) {
    f.Some? && f.value.Str? && f.value.s != ""
  }

  /** The field holds a string (possibly empty). */
  predicate IsString(f: Option<Value>) {
    f.Some? && f.value.Str?
  }

  /** `${f}` in a template literal. */
  function Interpolate(f: Option<Value>): (t: string)
    ensures IsString(f) ==> t == f.value.s
  {
    match f
    case None => "undefined"
    case Some(Null) => "null"
    case Some(Str(s)) => s
  }

  datatype Method = Get | Post | Put | Delete

  /** The API's resources; the user-scoped ones carry the `:email` segment. */
  datatype Path =
    | LoginPath                 // /api/auth/login
    | UserPath(email: string)    // /api/user/:email
    | VehiclePath(email: string) // /api/user/:email/vehicle
    | PhonePath(email: string)   // /api/user/:email/phone
    | StatusPath(email: string)  // /api/user/:email/status

  datatype Request = Request(verb: Method, path: Path, body: Object)
}
