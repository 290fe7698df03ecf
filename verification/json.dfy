/** Values as the program sees them after `json.loads`: the sensor readings,
    the wireless inspector's dictionary, the configuration document and the
    record handed to the CHORDS sender are all built from these. */
module Json {

  /** A decoded JSON value. Lists are never used by the program and are not
      represented; floating-point numbers are idealised as reals. */
  datatype Json =
    | Null
    | Bool(b: bool)
    | Int(i: int)
    | Float(f: real)
    | Str(s: string)
    | Obj(fields: map<string, Json>)

  /** The exceptions the program can raise while reading its configuration. */
  datatype Error =
    | MissingKey(key: string)   // Python's KeyError
    | NotAnObject(key: string)  // Python's TypeError: subscripting a non-dict with `key`

  datatype Result<+T> = Success(value: T) | Failure(error: Error) {
    predicate IsFailure() { Failure? }

    function PropagateFailure<U>(): Result<U>
      requires Failure?
    {
      Failure(error)
    }

    function Extract(): T
      requires Success?
    {
      value
    }
  }

  /** `v[key]` in Python, for a value that must be a dict. */
  function Lookup(v: Json, key: string): (r: Result<Json>)
    ensures r.Success? <==> v.Obj? && key in v.fields
    ensures r.Success? ==> r.value == v.fields[key]
    ensures r.Failure? ==> r.error == (if v.Obj? then MissingKey(key) else NotAnObject(key))
  {
    if !v.Obj? then Failure(NotAnObject(key))
    else if key !in v.fields then Failure(MissingKey(key))
    else Success(v.fields[key])
  }
}
