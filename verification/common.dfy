/** Values shared by every part of the ledger model. */
module Common {

  datatype Option<T> = None | Some(value: T)

  /** A string query parameter or form value is "truthy" in JavaScript when it is
      present and non-empty; `if (monthId)` and `x || fallback` test exactly this. */
  predicate Truthy(s: Option<string>)
  {
    s.Some? && s.value != ""
  }

  /** A number field of a JSON request body, as a validation schema receives it:
      left out, sent as `null`, or a finite number. */
  datatype JsonNumber = Absent | Null | Num(value: real)

  /** The result of `parseFloat` on a form field: not-a-number, or a finite number. */
  datatype Parsed = NaN | Number(value: real)

  /** What `JSON.stringify` makes of a parsed number: NaN is written as `null`. */
  function ToJson(p: Parsed): (n: JsonNumber)
    ensures n.Num? <==> p.Number?
    ensures n.Num? ==> n.value == p.value
  {
    match p
    case NaN => Null
    case Number(v) => Num(v)
  }

  /** An optional parsed number, where `undefined` is left out of the JSON text. */
  function OptionalToJson(p: Option<Parsed>): (n: JsonNumber)
    ensures n.Absent? <==> p.None?
  {
    match p
    case None => Absent
    case Some(q) => ToJson(q)
  }
}
