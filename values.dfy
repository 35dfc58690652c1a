/** Values carried by a measurement record.
    A record is the flat field-name to scalar mapping that the library builds,
    stores in its offline table and posts to the server. */
module Values {

  datatype Option<+T> = None | Some(value: T)

  /** The scalar kinds a record field can hold: org.json's null, booleans,
      integral numbers, floating-point numbers (as reals) and strings. */
  datatype Value = Null | Bool(b: bool) | Int(i: int) | Real(r: real) | Text(s: string)

  type Record = map<string, Value>

  /** A nullable string as a field value. */
  function OptText(s: Option<string>): (v: Value)
    ensures v == Null <==> s.None?
  {
    if s.Some? then Text(s.value) else Null
  }

  /** A nullable floating-point result as a field value. */
  function OptReal(x: Option<real>): (v: Value)
    ensures v == Null <==> x.None?
  {
    if x.Some? then Real(x.value) else Null
  }

  function Min(a: int, b: int): int
  {
    if a <= b then a else b
  }
}
