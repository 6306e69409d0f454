/** `POST /api/budget-items`: the schema for a new budget item and the row it inserts. */
module BudgetItemsRoute {
  import opened Common
  import opened Schema
  import opened Http

  /** The request body. */
  datatype CreateItemInput = CreateItemInput(
    budgetTypeId: string,
    name: string,
    budgetAmount: JsonNumber,
    order: JsonNumber,
    isSaving: Option<bool>)

  /** `createItemSchema.parse` succeeds. */
  predicate ValidCreateItem(b: CreateItemInput)
  {
    IsUuid(b.budgetTypeId) && |b.name| >= 1 && IsNonNegative(b.budgetAmount)
    && IsOptionalInteger(b.order)
  }

  /** A `budget_items` row with the `is_saving` column the route writes. */
  datatype BudgetItemRow = BudgetItemRow(
    id: string,
    budget_type_id: string,
    name: string,
    budget_amount: real,
    order: int,
    is_saving: bool)

  /** The row inserted for a validated body, as read back with the id `id`: the order is
      the given one or 0, and the saving flag the given one or false. */
  function NewItemRow(id: string, b: CreateItemInput): (row: BudgetItemRow)
    requires ValidCreateItem(b)
    ensures row.id == id && row.budget_type_id == b.budgetTypeId && row.name == b.name
    ensures row.budget_amount == b.budgetAmount.value && row.budget_amount >= 0.0
    ensures b.order.Absent? ==> row.order == 0
    ensures b.order.Num? ==> row.order as real == b.order.value
    ensures row.is_saving <==> b.isSaving == Some(true)
  {
    BudgetItemRow(id, b.budgetTypeId, b.name, b.budgetAmount.value, OrderOrZero(b.order),
      if b.isSaving.Some? then b.isSaving.value else false)
  }

  const CREATE_FALLBACK: string := "Failed to create budget item"

  /** `POST /api/budget-items`; `dbError` is the insert's error, if any. */
  function CreateItem(hasUser: bool, b: CreateItemInput, newId: string,
                      dbError: Option<string>): (resp: Response<BudgetItemRow>)
    ensures !hasUser ==> resp == Fail(401, UNAUTHORIZED)
    ensures hasUser && !ValidCreateItem(b) ==> resp == Fail(400, "Invalid input")
    ensures hasUser && ValidCreateItem(b) && dbError.Some? ==>
      resp == Failure(Error(dbError.value), CREATE_FALLBACK)
    ensures resp.Ok? <==> hasUser && ValidCreateItem(b) && dbError.None?
    ensures resp.Ok? ==> resp.data == NewItemRow(newId, b)
  {
    if !hasUser then Failure(Error(UNAUTHORIZED), CREATE_FALLBACK)
    else if !ValidCreateItem(b) then Failure(ZodError, CREATE_FALLBACK)
    else if dbError.Some? then Failure(Error(dbError.value), CREATE_FALLBACK)
    else Ok(NewItemRow(newId, b))
  }

  /** A created item is never stored with a negative budget, and a fractional order is
      refused rather than rounded. */
  lemma CreatedItemWellFormed(b: CreateItemInput, newId: string)
    ensures CreateItem(true, b, newId, None).Ok? ==> CreateItem(true, b, newId, None).data.budget_amount >= 0.0
    ensures b.order.Num? && !IsInteger(b.order.value) ==> CreateItem(true, b, newId, None) == Fail(400, "Invalid input")
  {
  }
}
