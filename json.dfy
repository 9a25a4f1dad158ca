/**
 * A decoded JSON document, as both sides of the console see it: the browser
 * after `JSON.parse` and the Go server after `json.Unmarshal` into
 * `map[string]interface{}`.  The number case is split in two because the Go
 * normaliser turns floating-point numbers (`float64`, `float32`) into
 * integers (`int64`), and it must be able to tell them apart afterwards.
 */
module Json {

  datatype Value =
    | Null
    | Bool(b: bool)
    | Str(s: string)
    | Float(f: real)   // a float64 or float32 number, as decoding produces
    | Int(i: int)      // an int64 number, as the normaliser produces
    | Arr(items: seq<Value>)
    | Obj(fields: map<string, Value>)

  /** Both number cases: what JavaScript's `typeof v === 'number'` accepts. */
  predicate IsNumber(v: Value)
  {
    v.Float? || v.Int?
  }

  /** The numeric value of a number, read as a real. */
  function NumberValue(v: Value): (r: real)
    requires IsNumber(v)
    ensures v.Int? ==> r == v.i as real
    ensures v.Float? ==> r == v.f
  {
    if v.Int? then v.i as real else v.f
  }
}
