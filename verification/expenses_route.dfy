/** The expenses API: the creation schema, the rows a creation writes into the
    `expenses`, `expense_items` and `attachments` tables, and the history listing. */
module ExpensesRoute {
  import opened Common
  import opened Seqs
  import opened Schema
  import opened Http
  import opened Ledger

  /** `z.string().url()`: the URL parser the schema relies on is not modelled. */
  type UrlCheck = string -> bool

  datatype ItemInput = ItemInput(
    itemName: string,
    budgetItemId: string,
    amount: JsonNumber,
    needReimburse: bool,
    reimbursementAmount: JsonNumber,
    reimburseTo: Option<string>)

  datatype AttachmentInput = AttachmentInput(fileUrl: string, filename: string, sizeBytes: JsonNumber)

  /** The body of `POST /api/expenses`. */
  datatype CreateExpenseInput = CreateExpenseInput(
    monthId: string,
    date: string,
    expenseName: string,
    note: Option<string>,
    totalAmount: JsonNumber,
    items: seq<ItemInput>,
    attachments: Option<seq<AttachmentInput>>)

  predicate ValidItem(i: ItemInput)
  {
    |i.itemName| >= 1 && IsUuid(i.budgetItemId) && IsNonNegative(i.amount)
    && IsOptionalNonNegative(i.reimbursementAmount)
    && (i.reimburseTo.Some? ==> IsUuid(i.reimburseTo.value))
  }

  predicate ValidAttachment(a: AttachmentInput, isUrl: UrlCheck)
  {
    isUrl(a.fileUrl) && IsOptionalNumber(a.sizeBytes)
  }

  /** `createExpenseSchema.parse` succeeds. */
  predicate ValidCreateExpense(b: CreateExpenseInput, isUrl: UrlCheck)
  {
    IsUuid(b.monthId) && MatchesDate(b.date) && |b.expenseName| >= 1
    && IsNonNegative(b.totalAmount)
    && |b.items| >= 1 && (forall k :: 0 <= k < |b.items| ==> ValidItem(b.items[k]))
    && (b.attachments.Some? ==>
          forall k :: 0 <= k < |b.attachments.value| ==> ValidAttachment(b.attachments.value[k], isUrl))
  }

  /** A request is refused unless it has a line item, non-empty names, non-negative
      total and amounts, and a `dddd-dd-dd` date. */
  lemma CreateRejectedUnlessWellFormed(b: CreateExpenseInput, isUrl: UrlCheck)
    ensures ValidCreateExpense(b, isUrl) ==>
      |b.items| >= 1 && |b.expenseName| >= 1 && MatchesDate(b.date)
      && b.totalAmount.Num? && b.totalAmount.value >= 0.0
      && forall k :: 0 <= k < |b.items| ==>
           |b.items[k].itemName| >= 1 && b.items[k].amount.Num? && b.items[k].amount.value >= 0.0
  {
  }

  // ---------------------------------------------------------------- rows written

  datatype ExpenseRow = ExpenseRow(
    id: string,
    month_id: string,
    date: string,
    expense_name: string,
    note: Option<string>,
    total_amount: real,
    created_by: string)

  datatype ExpenseItemInsert = ExpenseItemInsert(
    expense_id: string,
    item_name: string,
    budget_item_id: string,
    amount: real,
    need_reimburse: bool,
    reimbursement_amount: Option<real>,
    reimburse_to: Option<string>)

  datatype AttachmentInsert = AttachmentInsert(
    expense_id: string,
    file_url: string,
    filename: string,
    size_bytes: Option<real>)

  /** `validated.note || null`: an absent or empty note is stored as null. */
  function StoredNote(note: Option<string>): (r: Option<string>)
    ensures r.None? <==> !Truthy(note)
    ensures r.Some? ==> r == note
  {
    if Truthy(note) then note else None
  }

  /** The row inserted into `expenses`, as read back with the id `id` the database gave it. */
  function NewExpenseRow(id: string, b: CreateExpenseInput, userId: string): (row: ExpenseRow)
    requires b.totalAmount.Num?
    ensures row.id == id && row.created_by == userId
    ensures row.month_id == b.monthId && row.date == b.date && row.expense_name == b.expenseName
    ensures row.total_amount == b.totalAmount.value
    ensures row.note.None? <==> !Truthy(b.note)
  {
    ExpenseRow(id, b.monthId, b.date, b.expenseName, StoredNote(b.note), b.totalAmount.value, userId)
  }

  /** The `expense_items` row built from one validated line. */
  function ItemRow(expenseId: string, i: ItemInput): (row: ExpenseItemInsert)
    requires ValidItem(i)
    ensures row.expense_id == expenseId && row.item_name == i.itemName
    ensures row.budget_item_id == i.budgetItemId && row.amount == i.amount.value
    ensures row.need_reimburse == i.needReimburse
    ensures row.reimbursement_amount.Some? <==> i.needReimburse
    ensures i.needReimburse ==>
      row.reimbursement_amount.value
        == if i.reimbursementAmount.Num? then i.reimbursementAmount.value else i.amount.value
    ensures row.reimburse_to.Some? <==> i.needReimburse && Truthy(i.reimburseTo)
    ensures row.reimburse_to.Some? ==> row.reimburse_to == i.reimburseTo
  {
    ExpenseItemInsert(
      expenseId, i.itemName, i.budgetItemId, i.amount.value, i.needReimburse,
      if i.needReimburse then
        Some(if i.reimbursementAmount.Num? then i.reimbursementAmount.value else i.amount.value)
      else None,
      if i.needReimburse && Truthy(i.reimburseTo) then i.reimburseTo else None)
  }

  /** `validated.items.map(...)`: one row per line, in the same order. */
  function ItemRows(expenseId: string, items: seq<ItemInput>): (rows: seq<ExpenseItemInsert>)
    requires forall k :: 0 <= k < |items| ==> ValidItem(items[k])
    ensures |rows| == |items|
    ensures forall k :: 0 <= k < |items| ==> rows[k] == ItemRow(expenseId, items[k])
  {
    seq(|items|, k requires 0 <= k < |items| => ItemRow(expenseId, items[k]))
  }

  /** Every row built from a validated line has a non-negative amount and, exactly when
      the line is reimbursable, a non-negative reimbursement amount. */
  lemma StoredItemsWellFormed(expenseId: string, items: seq<ItemInput>)
    requires forall k :: 0 <= k < |items| ==> ValidItem(items[k])
    ensures forall row :: row in ItemRows(expenseId, items) ==>
      row.amount >= 0.0 && row.expense_id == expenseId
      && (row.reimbursement_amount.Some? <==> row.need_reimburse)
      && (row.reimbursement_amount.Some? ==> row.reimbursement_amount.value >= 0.0)
  {
    var rows := ItemRows(expenseId, items);
    forall row | row in rows
      ensures row.amount >= 0.0 && row.expense_id == expenseId
      ensures row.reimbursement_amount.Some? <==> row.need_reimburse
      ensures row.reimbursement_amount.Some? ==> row.reimbursement_amount.value >= 0.0
    {
      var k :| 0 <= k < |rows| && rows[k] == row;
      assert ValidItem(items[k]);
    }
  }

  /** The schema puts no upper bound on a reimbursement: any non-negative amount, also
      one above the line's own amount, passes and is stored as given. */
  lemma ReimbursementNotBoundedByAmount(expenseId: string, i: ItemInput, r: real)
    requires ValidItem(i) && i.needReimburse && r >= 0.0
    ensures ValidItem(i.(reimbursementAmount := Num(r)))
    ensures ItemRow(expenseId, i.(reimbursementAmount := Num(r))).reimbursement_amount == Some(r)
  {
  }

  /** The `attachments` row for one uploaded file; a missing or zero size is stored as null. */
  function AttachmentRow(expenseId: string, a: AttachmentInput): (row: AttachmentInsert)
    ensures row.expense_id == expenseId && row.file_url == a.fileUrl && row.filename == a.filename
    ensures row.size_bytes.None? <==> !a.sizeBytes.Num? || a.sizeBytes.value == 0.0
    ensures row.size_bytes.Some? ==> row.size_bytes.value == a.sizeBytes.value
  {
    AttachmentInsert(expenseId, a.fileUrl, a.filename,
      if a.sizeBytes.Num? && a.sizeBytes.value != 0.0 then Some(a.sizeBytes.value) else None)
  }

  /** The attachment rows to insert: none unless a non-empty list was sent. */
  function AttachmentRows(expenseId: string, atts: Option<seq<AttachmentInput>>): (rows: seq<AttachmentInsert>)
    ensures atts.None? ==> rows == []
    ensures atts.Some? ==>
      |rows| == |atts.value| && forall k :: 0 <= k < |rows| ==> rows[k] == AttachmentRow(expenseId, atts.value[k])
  {
    match atts
    case None => []
    case Some(list) => seq(|list|, k requires 0 <= k < |list| => AttachmentRow(expenseId, list[k]))
  }

  // ---------------------------------------------------------------- creation

  /** Which database insert reports an error, if any. */
  datatype InsertFailure =
    | NoFailure
    | ExpenseInsertFails(message: string)
    | ItemsInsertFails(message: string)
    | AttachmentsInsertFails(message: string)

  const CREATE_FALLBACK: string := "Failed to create expense"

  /** The three tables `POST /api/expenses` writes to. */
  class ExpenseTables {
    var expenses: seq<ExpenseRow>
    var expenseItems: seq<ExpenseItemInsert>
    var attachments: seq<AttachmentInsert>

    constructor ()
      ensures expenses == [] && expenseItems == [] && attachments == []
    {
      expenses, expenseItems, attachments := [], [], [];
    }

    /** `POST /api/expenses` for the signed-in `user` (None when there is none); `newId` is
        the id the database gives the new expense. The inserts run one after another
        with no transaction, so a later failure leaves the earlier rows in place. */
    method Create(user: Option<string>, body: CreateExpenseInput, isUrl: UrlCheck,
                  newId: string, failure: InsertFailure)
      returns (resp: Response<ExpenseRow>)
      modifies this
      ensures user.None? ==>
        resp == Fail(401, UNAUTHORIZED) && unchanged(this)
      ensures user.Some? && !ValidCreateExpense(body, isUrl) ==>
        resp == Fail(400, "Invalid input") && unchanged(this)
      ensures user.Some? && ValidCreateExpense(body, isUrl) && failure.ExpenseInsertFails? ==>
        resp == Failure(Error(failure.message), CREATE_FALLBACK) && unchanged(this)
      ensures user.Some? && ValidCreateExpense(body, isUrl) && !failure.ExpenseInsertFails? ==>
        expenses == old(expenses) + [NewExpenseRow(newId, body, user.value)]
      ensures user.Some? && ValidCreateExpense(body, isUrl) && failure.ItemsInsertFails? ==>
        resp == Failure(Error(failure.message), CREATE_FALLBACK)
        && expenseItems == old(expenseItems) && attachments == old(attachments)
      ensures user.Some? && ValidCreateExpense(body, isUrl)
              && (failure.NoFailure? || failure.AttachmentsInsertFails?) ==>
        expenseItems == old(expenseItems) + ItemRows(newId, body.items)
      ensures user.Some? && ValidCreateExpense(body, isUrl) && failure.AttachmentsInsertFails?
              && AttachmentRows(newId, body.attachments) != [] ==>
        resp == Failure(Error(failure.message), CREATE_FALLBACK) && attachments == old(attachments)
      ensures user.Some? && ValidCreateExpense(body, isUrl)
              && (failure.NoFailure?
                  || (failure.AttachmentsInsertFails? && AttachmentRows(newId, body.attachments) == [])) ==>
        resp == Ok(NewExpenseRow(newId, body, user.value))
        && attachments == old(attachments) + AttachmentRows(newId, body.attachments)
    {
      if user.None? {
        return Failure(Error(UNAUTHORIZED), CREATE_FALLBACK);
      }
      if !ValidCreateExpense(body, isUrl) {
        return Failure(ZodError, CREATE_FALLBACK);
      }
      if failure.ExpenseInsertFails? {
        return Failure(Error(failure.message), CREATE_FALLBACK);
      }
      var expense := NewExpenseRow(newId, body, user.value);
      expenses := expenses + [expense];

      if failure.ItemsInsertFails? {
        return Failure(Error(failure.message), CREATE_FALLBACK);
      }
      expenseItems := expenseItems + ItemRows(newId, body.items);

      var attachmentRows := AttachmentRows(newId, body.attachments);
      if attachmentRows != [] {
        if failure.AttachmentsInsertFails? {
          return Failure(Error(failure.message), CREATE_FALLBACK);
        }
        attachments := attachments + attachmentRows;
      }
      resp := Ok(expense);
    }
  }

  // ---------------------------------------------------------------- listing

  datatype Profile = Profile(email: string, display_name: Option<string>)

  /** An `expenses` row as the listing query selects it, with its nested line items;
      `date` is the date column read back as a day number. */
  datatype ExpenseRecord = ExpenseRecord(
    id: string,
    month_id: string,
    date: int,
    expense_name: string,
    note: Option<string>,
    deleted_at: Option<int>,
    created_by_profile: Option<Profile>,
    items: seq<ExpenseItemRow>)

  /** An expense as returned, with the creator's profile flattened into two fields. */
  datatype ListedExpense = ListedExpense(
    expense: ExpenseRecord,
    created_by_email: Option<string>,
    created_by_name: Option<string>)

  /** The database's `ilike` text match on name or note is not modelled. */
  type TextMatch = (ExpenseRecord, string) -> bool

  function ExpenseDate(e: ExpenseRecord): int
  {
    e.date
  }

  /** The filters the listing query applies in the database. */
  predicate SelectedByQuery(e: ExpenseRecord, monthId: Option<string>, q: Option<string>, ilike: TextMatch)
  {
    e.deleted_at.None?
    && (Truthy(monthId) ==> e.month_id == monthId.value)
    && (Truthy(q) ==> ilike(e, q.value))
  }

  /** The status filter applied to the fetched expenses: `POSTED` asks for a line that is
      not reimbursable, any other status for a line in that reimbursement status. */
  predicate KeptByStatus(e: ExpenseRecord, status: string)
  {
    if status == "POSTED" then HasLine(e.items, NotReimbursable)
    else HasLine(e.items, InStatus(status))
  }

  predicate NotReimbursable(line: ExpenseItemRow)
  {
    !line.need_reimburse
  }

  function InStatus(status: string): ExpenseItemRow -> bool
  {
    (line: ExpenseItemRow) => StatusName(line.reimburse_status) == status
  }

  /** `items.some(p)`. */
  predicate HasLine(items: seq<ExpenseItemRow>, p: ExpenseItemRow -> bool)
    ensures HasLine(items, p) <==> exists k :: 0 <= k < |items| && p(items[k])
  {
    |items| > 0 && (p(items[0]) || HasLine(items[1..], p))
  }

  /** `POSTED` keeps an expense with a line that is not reimbursable; any other status
      keeps an expense with a line in exactly that reimbursement status. */
  lemma StatusRules(e: ExpenseRecord, status: string)
    ensures status == "POSTED" ==>
      (KeptByStatus(e, status) <==> exists k :: 0 <= k < |e.items| && !e.items[k].need_reimburse)
    ensures status != "POSTED" ==>
      (KeptByStatus(e, status) <==> exists k :: 0 <= k < |e.items| && StatusName(e.items[k].reimburse_status) == status)
  {
  }

  function Formatted(e: ExpenseRecord): (x: ListedExpense)
    ensures x.expense == e
  {
    ListedExpense(
      e,
      if e.created_by_profile.Some? then Some(e.created_by_profile.value.email) else None,
      if e.created_by_profile.Some? then e.created_by_profile.value.display_name else None)
  }

  function QuerySelects(monthId: Option<string>, q: Option<string>, ilike: TextMatch): ExpenseRecord -> bool
  {
    e => SelectedByQuery(e, monthId, q, ilike)
  }

  function HasStatus(status: string): ExpenseRecord -> bool
  {
    e => KeptByStatus(e, status)
  }

  /** The rows the listing query returns: not deleted, in the month and matching the
      search when those are given, newest first. */
  function Fetched(table: seq<ExpenseRecord>, monthId: Option<string>, q: Option<string>,
                   ilike: TextMatch): (r: seq<ExpenseRecord>)
    ensures |r| <= |table|
    ensures forall e :: e in r <==> e in table && SelectedByQuery(e, monthId, q, ilike)
    ensures SortedDesc(r, ExpenseDate)
  {
    var selected := Filter(table, QuerySelects(monthId, q, ilike));
    var r := SortDesc(selected, ExpenseDate);
    assert forall e :: e in r <==> e in multiset(r);
    assert forall e :: e in selected <==> e in multiset(selected);
    r
  }

  /** The status filter, applied only when a non-empty status is given; survivors keep
      their order. */
  function StatusFiltered(rows: seq<ExpenseRecord>, status: Option<string>): (r: seq<ExpenseRecord>)
    ensures |r| <= |rows|
    ensures forall e :: e in r <==> e in rows && (Truthy(status) ==> KeptByStatus(e, status.value))
    ensures !Truthy(status) ==> r == rows
    ensures Truthy(status) ==> forall k :: 0 <= k < |r| ==> KeptByStatus(r[k], status.value)
    ensures SortedDesc(rows, ExpenseDate) ==> SortedDesc(r, ExpenseDate)
  {
    if Truthy(status) then
      var r := Filter(rows, HasStatus(status.value));
      assert SortedDesc(rows, ExpenseDate) ==> SortedDesc(r, ExpenseDate) by {
        if SortedDesc(rows, ExpenseDate) {
          FilterKeepsOrder(rows, HasStatus(status.value), ExpenseDate);
        }
      }
      r
    else rows
  }

  function FormatAll(rows: seq<ExpenseRecord>): (r: seq<ListedExpense>)
    ensures |r| == |rows|
    ensures forall k :: 0 <= k < |r| ==> r[k] == Formatted(rows[k])
    ensures forall k :: 0 <= k < |r| ==> r[k].expense == rows[k]
    ensures forall e :: e in rows ==> Formatted(e) in r
    ensures SortedDesc(rows, ExpenseDate) ==>
      forall i, j :: 0 <= i < j < |r| ==> r[i].expense.date >= r[j].expense.date
  {
    var r := seq(|rows|, k requires 0 <= k < |rows| => Formatted(rows[k]));
    assert forall e :: e in rows ==> Formatted(e) in r by {
      forall e | e in rows ensures Formatted(e) in r {
        var k :| 0 <= k < |rows| && rows[k] == e;
        assert r[k] == Formatted(e);
      }
    }
    r
  }

  /** `GET /api/expenses`, newest first: the query's rows, then the status filter when a
      status is given, then the creator flattening. */
  function ListExpenses(table: seq<ExpenseRecord>, monthId: Option<string>, q: Option<string>,
                        status: Option<string>, ilike: TextMatch): (r: seq<ListedExpense>)
    ensures |r| <= |table|
    ensures forall k :: 0 <= k < |r| ==> r[k].expense in table && r[k].expense.deleted_at.None?
    ensures Truthy(monthId) ==> forall k :: 0 <= k < |r| ==> r[k].expense.month_id == monthId.value
    ensures Truthy(q) ==> forall k :: 0 <= k < |r| ==> ilike(r[k].expense, q.value)
    ensures forall k :: 0 <= k < |r| ==> SelectedByQuery(r[k].expense, monthId, q, ilike)
    ensures Truthy(status) ==> forall k :: 0 <= k < |r| ==> KeptByStatus(r[k].expense, status.value)
    ensures forall e ::
      (e in table && SelectedByQuery(e, monthId, q, ilike) && (Truthy(status) ==> KeptByStatus(e, status.value)))
      ==> Formatted(e) in r
    ensures forall i, j :: 0 <= i < j < |r| ==> r[i].expense.date >= r[j].expense.date
  {
    var kept := StatusFiltered(Fetched(table, monthId, q, ilike), status);
    KeptRows(table, monthId, q, status, ilike);
    FormatAll(kept)
  }

  /** The expenses that survive the query and the status filter, stated against the
      table: each is a stored expense passing every filter, each such expense survives,
      and the dates never increase. */
  lemma KeptRows(table: seq<ExpenseRecord>, monthId: Option<string>, q: Option<string>,
                 status: Option<string>, ilike: TextMatch)
    ensures var kept := StatusFiltered(Fetched(table, monthId, q, ilike), status);
      |kept| <= |table|
      && (forall k :: 0 <= k < |kept| ==>
            kept[k] in table && SelectedByQuery(kept[k], monthId, q, ilike)
            && (Truthy(status) ==> KeptByStatus(kept[k], status.value)))
      && (forall e ::
            (e in table && SelectedByQuery(e, monthId, q, ilike) && (Truthy(status) ==> KeptByStatus(e, status.value)))
            ==> e in kept)
      && SortedDesc(kept, ExpenseDate)
  {
    var fetched := Fetched(table, monthId, q, ilike);
    var kept := StatusFiltered(fetched, status);
    forall k | 0 <= k < |kept|
      ensures kept[k] in table && SelectedByQuery(kept[k], monthId, q, ilike)
    {
      assert kept[k] in kept;
      assert kept[k] in fetched;
    }
  }

  const EXPENSES_FETCH_FAILED: string := "Failed to fetch expenses"

  /** `GET /api/expenses`. */
  function GetExpenses(hasUser: bool, dbError: Option<string>, table: seq<ExpenseRecord>,
                       monthId: Option<string>, q: Option<string>, status: Option<string>,
                       ilike: TextMatch): (resp: Response<seq<ListedExpense>>)
    ensures !hasUser ==> resp == Fail(401, UNAUTHORIZED)
    ensures hasUser && dbError.Some? ==> resp == Failure(Error(dbError.value), EXPENSES_FETCH_FAILED)
    ensures hasUser && dbError.Some? ==>
      resp.status == (if dbError.value == UNAUTHORIZED then 401 else 500)
    ensures hasUser && dbError.None? ==> resp == Ok(ListExpenses(table, monthId, q, status, ilike))
    ensures resp.Ok? <==> hasUser && dbError.None?
  {
    Listing(hasUser, dbError, ListExpenses(table, monthId, q, status, ilike), EXPENSES_FETCH_FAILED)
  }
}
