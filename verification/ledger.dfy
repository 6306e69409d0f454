/** The stored entities the ledger code reads, with the enumerations of the schema. */
module Ledger {
  import opened Common

  /** The `workspace_role` enumeration. */
  datatype Role = OWNER | EDITOR | VIEWER

  /** The `reimburse_status` enumeration. */
  datatype ReimburseStatus = NONE | PENDING | APPROVED | REJECTED

  /** The text the database and the query strings use for a status. */
  function StatusName(s: ReimburseStatus): string
  {
    match s
    case NONE => "NONE"
    case PENDING => "PENDING"
    case APPROVED => "APPROVED"
    case REJECTED => "REJECTED"
  }

  /** A row of `expense_items`, with the `reimburse_to` column the routes write. */
  datatype ExpenseItemRow = ExpenseItemRow(
    id: string,
    expense_id: string,
    item_name: string,
    budget_item_id: string,
    amount: real,
    need_reimburse: bool,
    reimbursement_amount: Option<real>,
    reimburse_to: Option<string>,
    reimburse_status: ReimburseStatus,
    created_at: int)
}
