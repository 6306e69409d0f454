/** `POST /api/budget-types`: the schema for a new budget type and the row it inserts. */
module BudgetTypesRoute {
  import opened Common
  import opened Schema
  import opened Http

  /** The request body. */
  datatype CreateTypeInput = CreateTypeInput(monthId: string, name: string, order: JsonNumber)

  /** `createTypeSchema.parse` succeeds. */
  predicate ValidCreateType(b: CreateTypeInput)
  {
    IsUuid(b.monthId) && |b.name| >= 1 && IsOptionalInteger(b.order)
  }

  datatype BudgetTypeRow = BudgetTypeRow(id: string, month_id: string, name: string, order: int)

  /** The row inserted for a validated body, as read back with the id `id`. */
  function NewTypeRow(id: string, b: CreateTypeInput): (row: BudgetTypeRow)
    requires ValidCreateType(b)
    ensures row.id == id && row.month_id == b.monthId && row.name == b.name
    ensures b.order.Absent? ==> row.order == 0
    ensures b.order.Num? ==> row.order as real == b.order.value
  {
    BudgetTypeRow(id, b.monthId, b.name, OrderOrZero(b.order))
  }

  const CREATE_FALLBACK: string := "Failed to create budget type"

  /** `POST /api/budget-types`; `dbError` is the insert's error, if any. */
  function CreateType(hasUser: bool, b: CreateTypeInput, newId: string,
                      dbError: Option<string>): (resp: Response<BudgetTypeRow>)
    ensures !hasUser ==> resp == Fail(401, UNAUTHORIZED)
    ensures hasUser && !ValidCreateType(b) ==> resp == Fail(400, "Invalid input")
    ensures hasUser && ValidCreateType(b) && dbError.Some? ==>
      resp == Failure(Error(dbError.value), CREATE_FALLBACK)
    ensures resp.Ok? <==> hasUser && ValidCreateType(b) && dbError.None?
    ensures resp.Ok? ==> resp.data == NewTypeRow(newId, b)
  {
    if !hasUser then Failure(Error(UNAUTHORIZED), CREATE_FALLBACK)
    else if !ValidCreateType(b) then Failure(ZodError, CREATE_FALLBACK)
    else if dbError.Some? then Failure(Error(dbError.value), CREATE_FALLBACK)
    else Ok(NewTypeRow(newId, b))
  }
}
