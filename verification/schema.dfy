/** The request-body rules the API routes declare with their validation schemas. */
module Schema {
  import opened Common
  import opened Text

  /** `z.string().uuid()`: eight, four, four, four and twelve hex digits joined by dashes. */
  predicate IsUuid(s: string)
  {
    |s| == 36 &&
    forall i :: 0 <= i < 36 ==>
      if i == 8 || i == 13 || i == 18 || i == 23 then s[i] == '-' else IsHexDigit(s[i])
  }

  /** `z.string().regex(/^\d{4}-\d{2}-\d{2}$/)`. */
  predicate MatchesDate(s: string)
  {
    |s| == 10 &&
    forall i :: 0 <= i < 10 ==> if i == 4 || i == 7 then s[i] == '-' else IsDigit(s[i])
  }

  /** `z.number().int()` on a number that is present. */
  predicate IsInteger(v: real)
  {
    v.Floor as real == v
  }

  /** `z.number()`, a required number. */
  predicate IsNumber(n: JsonNumber)
  {
    n.Num?
  }

  /** `z.number().min(0)`. */
  predicate IsNonNegative(n: JsonNumber)
  {
    n.Num? && n.value >= 0.0
  }

  /** `z.number().optional()`: left out or a number; `null` is refused. */
  predicate IsOptionalNumber(n: JsonNumber)
  {
    n.Absent? || n.Num?
  }

  /** `z.number().min(0).optional()`. */
  predicate IsOptionalNonNegative(n: JsonNumber)
  {
    n.Absent? || IsNonNegative(n)
  }

  /** `z.number().int().optional()`. */
  predicate IsOptionalInteger(n: JsonNumber)
  {
    n.Absent? || (n.Num? && IsInteger(n.value))
  }

  /** `validated.order || 0` on an optional integer that passed the schema. */
  function OrderOrZero(n: JsonNumber): (r: int)
    requires IsOptionalInteger(n)
    ensures n.Absent? ==> r == 0
    ensures n.Num? ==> r as real == n.value
  {
    match n
    case Num(v) => v.Floor
    case _ => 0
  }
}
