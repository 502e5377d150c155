// Decoded JSON as Go holds it in interface{}: numbers are float64 when decoded and int64 once
// coerced, and a missing value and null are both nil.
module Json {
  datatype Json =
    | Null
    | Bool(b: bool)
    | Int(n: int)
    | Float(x: real)
    | Str(s: string)
    | List(items: seq<Json>)
    | Object(members: map<string, Json>)
  {
    // m[key] in Go: nil for a missing key.
    function Member(key: string): Json
      requires Object?
    {
      if key in members then members[key] else Null
    }
  }
}
