/** `GET /api/reimbursements`: the reimbursable expense lines, filtered by status and
    month, in the order the database returns them. */
module ReimbursementsRoute {
  import opened Common
  import opened Seqs
  import opened Http
  import opened Ledger

  /** The joined `expenses` row of a line; `date` read back as a day number. */
  datatype ExpenseRef = ExpenseRef(id: string, date: int, expense_name: string, month_id: string)

  datatype BudgetItemRef = BudgetItemRef(id: string, name: string)

  /** An `expense_items` row with its joined budget item and expense, either of which the
      database may return as null. */
  datatype ReimbursementLine = ReimbursementLine(
    id: string,
    item_name: string,
    amount: real,
    reimbursement_amount: Option<real>,
    reimburse_status: ReimburseStatus,
    need_reimburse: bool,
    budget_item: Option<BudgetItemRef>,
    expense: Option<ExpenseRef>)

  /** `searchParams.get('status') || 'PENDING'`. */
  function EffectiveStatus(status: Option<string>): (s: string)
    ensures !Truthy(status) ==> s == "PENDING"
    ensures Truthy(status) ==> s == status.value
    ensures s != ""
  {
    if Truthy(status) then status.value else "PENDING"
  }

  predicate Reimbursable(line: ReimbursementLine)
  {
    line.need_reimburse
  }

  function InStatus(status: string): ReimbursementLine -> bool
  {
    (line: ReimbursementLine) => StatusName(line.reimburse_status) == status
  }

  /** `item.expenses?.month_id === monthId`: a line without an expense never matches. */
  function InMonth(monthId: string): ReimbursementLine -> bool
  {
    (line: ReimbursementLine) => line.expense.Some? && line.expense.value.month_id == monthId
  }

  /** The status filter: none for `ALL`, otherwise lines in exactly that status. */
  function ByStatus(lines: seq<ReimbursementLine>, status: string): (r: seq<ReimbursementLine>)
    ensures status == "ALL" ==> r == lines
    ensures status != "ALL" ==> r == Filter(lines, InStatus(status))
  {
    if status != "ALL" then Filter(lines, InStatus(status)) else lines
  }

  /** The month filter, applied only when a month is given. */
  function ByMonth(lines: seq<ReimbursementLine>, monthId: Option<string>): (r: seq<ReimbursementLine>)
    ensures !Truthy(monthId) ==> r == lines
    ensures Truthy(monthId) ==> r == Filter(lines, InMonth(monthId.value))
  {
    if Truthy(monthId) then Filter(lines, InMonth(monthId.value)) else lines
  }

  /** What the route returns for the lines `rows` of `expense_items`, taken in the order
      the database's date ordering gives. */
  function ListReimbursements(rows: seq<ReimbursementLine>, status: Option<string>,
                              monthId: Option<string>): (r: seq<ReimbursementLine>)
    ensures |r| <= |rows|
    ensures forall x :: x in r <==>
      x in rows && x.need_reimburse
      && (EffectiveStatus(status) != "ALL" ==> StatusName(x.reimburse_status) == EffectiveStatus(status))
      && (Truthy(monthId) ==> x.expense.Some? && x.expense.value.month_id == monthId.value)
  {
    ByMonth(ByStatus(Filter(rows, Reimbursable), EffectiveStatus(status)), monthId)
  }

  /** Leaving the status out, or sending it empty, lists the same lines as asking for
      `PENDING`. */
  lemma AbsentStatusMeansPending(rows: seq<ReimbursementLine>, monthId: Option<string>)
    ensures ListReimbursements(rows, None, monthId) == ListReimbursements(rows, Some("PENDING"), monthId)
    ensures ListReimbursements(rows, Some(""), monthId) == ListReimbursements(rows, Some("PENDING"), monthId)
  {
  }

  /** The filters only drop lines: any order the database gives (for any sort key) is
      kept, and no line is duplicated. */
  lemma {:induction false} ListingKeepsOrder(rows: seq<ReimbursementLine>, status: Option<string>,
                                             monthId: Option<string>, key: ReimbursementLine -> int)
    requires SortedDesc(rows, key)
    ensures SortedDesc(ListReimbursements(rows, status, monthId), key)
    ensures multiset(ListReimbursements(rows, status, monthId)) <= multiset(rows)
  {
    var s1 := Filter(rows, Reimbursable);
    FilterKeepsOrder(rows, Reimbursable, key);
    var st := EffectiveStatus(status);
    var s2 := ByStatus(s1, st);
    if st != "ALL" {
      FilterKeepsOrder(s1, InStatus(st), key);
    }
    if Truthy(monthId) {
      FilterKeepsOrder(s2, InMonth(monthId.value), key);
    }
  }

  const REIMBURSEMENTS_FETCH_FAILED: string := "Failed to fetch reimbursements"

  /** The values of the `reimburse_status` enum column. */
  predicate IsStatusName(s: string)
  {
    s == "NONE" || s == "PENDING" || s == "APPROVED" || s == "REJECTED"
  }

  /** The enum's values are exactly the names of the statuses. */
  lemma StatusNamesAreTheEnum(s: string)
    ensures IsStatusName(s) <==> exists st: ReimburseStatus :: StatusName(st) == s
  {
    if IsStatusName(s) {
      if s == "NONE" { assert StatusName(NONE) == s; }
      else if s == "PENDING" { assert StatusName(PENDING) == s; }
      else if s == "APPROVED" { assert StatusName(APPROVED) == s; }
      else { assert StatusName(REJECTED) == s; }
    }
  }

  /** A status the query can compare the enum column with: `ALL` adds no comparison. */
  predicate StatusAccepted(status: Option<string>)
  {
    EffectiveStatus(status) == "ALL" || IsStatusName(EffectiveStatus(status))
  }

  /** The message PostgreSQL raises when a text that is not one of the enum's values is
      compared with the `reimburse_status` column. */
  function EnumCastMessage(s: string): (m: string)
    ensures m != "" && m != UNAUTHORIZED
  {
    var m := "invalid" + " input value for enum reimburse_status: \"" + s + "\"";
    assert m[0] == "invalid"[0] == 'i';
    assert UNAUTHORIZED[0] == 'U';
    m
  }

  /** The error the query comes back with: the database's own, or else the enum cast
      error for a status the column cannot hold. */
  function QueryError(dbError: Option<string>, status: Option<string>): (err: Option<string>)
    ensures dbError.Some? ==> err == dbError
    ensures dbError.None? ==> (err.None? <==> StatusAccepted(status))
    ensures dbError.None? && err.Some? ==> err.value == EnumCastMessage(EffectiveStatus(status))
  {
    if dbError.Some? then dbError
    else if StatusAccepted(status) then None
    else Some(EnumCastMessage(EffectiveStatus(status)))
  }

  /** `GET /api/reimbursements`: 401 without a user, the database's error as 401 or 500,
      500 for a status that is not an enum value, and the listing otherwise. */
  function GetReimbursements(hasUser: bool, dbError: Option<string>, rows: seq<ReimbursementLine>,
                             status: Option<string>, monthId: Option<string>)
    : (resp: Response<seq<ReimbursementLine>>)
    ensures !hasUser ==> resp == Fail(401, UNAUTHORIZED)
    ensures hasUser && dbError.Some? ==> resp == Failure(Error(dbError.value), REIMBURSEMENTS_FETCH_FAILED)
    ensures hasUser && dbError.None? && !StatusAccepted(status) ==>
      resp == Fail(500, EnumCastMessage(EffectiveStatus(status)))
    ensures hasUser && dbError.None? && StatusAccepted(status) ==>
      resp == Ok(ListReimbursements(rows, status, monthId))
    ensures resp.Ok? <==> hasUser && dbError.None? && StatusAccepted(status)
  {
    Listing(hasUser, QueryError(dbError, status), ListReimbursements(rows, status, monthId),
      REIMBURSEMENTS_FETCH_FAILED)
  }

  /** `?status=FOO` and `?status=POSTED` are answered with 500, whatever is stored. */
  lemma UnknownStatusIsServerError(rows: seq<ReimbursementLine>, monthId: Option<string>)
    ensures GetReimbursements(true, None, rows, Some("FOO"), monthId).Fail?
    ensures GetReimbursements(true, None, rows, Some("FOO"), monthId).status == 500
    ensures GetReimbursements(true, None, rows, Some("POSTED"), monthId).status == 500
  {
    assert |"FOO"| == 3 && "FOO" != "ALL" by { assert "FOO"[0] != "ALL"[0]; }
    assert !StatusAccepted(Some("FOO"));
    assert |"POSTED"| == 6 && "POSTED"[0] == 'P' && "POSTED"[1] == 'O';
    assert !StatusAccepted(Some("POSTED"));
  }
}
