/** The months API: listing a workspace's months newest first, and creating a month. */
module MonthsRoute {
  import opened Common
  import opened Seqs
  import opened Schema
  import opened Http

  /** A `months` row; `income` and `carry_over` are columns the route writes. */
  datatype MonthRow = MonthRow(
    id: string,
    workspace_id: string,
    owner_id: string,
    year: int,
    month: int,
    title: Option<string>,
    income: real,
    carry_over: real)

  // ---------------------------------------------------------------- listing

  /** The sort key of `.order('year', desc).order('month', desc)`. */
  function MonthKey(m: MonthRow): int
  {
    m.year * 12 + (m.month - 1)
  }

  /** For months numbered 1 to 12 the key orders by year first, then by month. */
  lemma MonthKeyIsCalendarOrder(a: MonthRow, b: MonthRow)
    requires 1 <= a.month <= 12 && 1 <= b.month <= 12
    ensures MonthKey(a) >= MonthKey(b) <==>
      a.year > b.year || (a.year == b.year && a.month >= b.month)
  {
    if a.year > b.year {
      assert a.year * 12 >= b.year * 12 + 12;
    } else if a.year < b.year {
      assert b.year * 12 >= a.year * 12 + 12;
    }
  }

  function InWorkspace(workspaceId: Option<string>): MonthRow -> bool
  {
    (m: MonthRow) => Truthy(workspaceId) ==> m.workspace_id == workspaceId.value
  }

  /** The months `GET /api/months` returns: those of the workspace when one is given,
      all otherwise, in descending sort-key order. */
  function ListMonths(table: seq<MonthRow>, workspaceId: Option<string>): (r: seq<MonthRow>)
    ensures |r| <= |table|
    ensures forall m :: m in r <==> m in table && (Truthy(workspaceId) ==> m.workspace_id == workspaceId.value)
    ensures multiset(r) == multiset(Filter(table, InWorkspace(workspaceId)))
    ensures !Truthy(workspaceId) ==> multiset(r) == multiset(table)
    ensures SortedDesc(r, MonthKey)
  {
    var selected := Filter(table, InWorkspace(workspaceId));
    var r := SortDesc(selected, MonthKey);
    assert forall m :: m in r <==> m in multiset(r);
    assert forall m :: m in selected <==> m in multiset(selected);
    assert !Truthy(workspaceId) ==> selected == table by {
      if !Truthy(workspaceId) {
        FilterAll(table, InWorkspace(workspaceId));
      }
    }
    r
  }

  lemma {:induction false} FilterAll(table: seq<MonthRow>, p: MonthRow -> bool)
    requires forall m :: p(m)
    ensures Filter(table, p) == table
  {
    if |table| > 0 {
      FilterAll(table[1..], p);
      assert table == [table[0]] + table[1..];
    }
  }

  /** With every stored month numbered 1 to 12, the listing runs by year descending and,
      within a year, by month descending. */
  lemma ListedNewestFirst(table: seq<MonthRow>, workspaceId: Option<string>)
    requires forall k :: 0 <= k < |table| ==> 1 <= table[k].month <= 12
    ensures var r := ListMonths(table, workspaceId);
      forall i, j :: 0 <= i < j < |r| ==>
        r[i].year > r[j].year || (r[i].year == r[j].year && r[i].month >= r[j].month)
  {
    var r := ListMonths(table, workspaceId);
    forall i, j | 0 <= i < j < |r|
      ensures r[i].year > r[j].year || (r[i].year == r[j].year && r[i].month >= r[j].month)
    {
      assert r[i] in table && r[j] in table;
      MonthKeyIsCalendarOrder(r[i], r[j]);
    }
  }

  const MONTHS_FETCH_FAILED: string := "Failed to fetch months"

  /** `GET /api/months`. */
  function GetMonths(hasUser: bool, dbError: Option<string>, table: seq<MonthRow>,
                     workspaceId: Option<string>): (resp: Response<seq<MonthRow>>)
    ensures !hasUser ==> resp == Fail(401, UNAUTHORIZED)
    ensures hasUser && dbError.Some? ==> resp == Failure(Error(dbError.value), MONTHS_FETCH_FAILED)
    ensures hasUser && dbError.Some? ==>
      resp.status == (if dbError.value == UNAUTHORIZED then 401 else 500)
    ensures hasUser && dbError.None? ==> resp == Ok(ListMonths(table, workspaceId))
    ensures resp.Ok? <==> hasUser && dbError.None?
  {
    Listing(hasUser, dbError, ListMonths(table, workspaceId), MONTHS_FETCH_FAILED)
  }

  // ---------------------------------------------------------------- creation

  /** The body of `POST /api/months`. */
  datatype CreateMonthInput = CreateMonthInput(
    workspaceId: string,
    year: JsonNumber,
    month: JsonNumber,
    title: Option<string>,
    income: JsonNumber,
    carryOver: JsonNumber)

  /** An integer in `[lo, hi]`. */
  predicate IntegerIn(n: JsonNumber, lo: int, hi: int)
  {
    n.Num? && IsInteger(n.value) && lo as real <= n.value <= hi as real
  }

  /** `createMonthSchema.parse` succeeds. */
  predicate ValidCreateMonth(b: CreateMonthInput)
  {
    IsUuid(b.workspaceId) && IntegerIn(b.year, 2000, 2100) && IntegerIn(b.month, 1, 12)
    && IsNonNegative(b.income) && IsOptionalNonNegative(b.carryOver)
  }

  /** The row inserted for a validated body, as read back with the id `id`. */
  function NewMonthRow(id: string, b: CreateMonthInput, userId: string): (row: MonthRow)
    requires ValidCreateMonth(b)
    ensures row.id == id && row.workspace_id == b.workspaceId && row.owner_id == userId
    ensures row.year as real == b.year.value && 2000 <= row.year <= 2100
    ensures row.month as real == b.month.value && 1 <= row.month <= 12
    ensures row.title.None? <==> !Truthy(b.title)
    ensures row.title.Some? ==> row.title == b.title
    ensures row.income == b.income.value && row.income >= 0.0
    ensures row.carry_over == (if b.carryOver.Num? then b.carryOver.value else 0.0)
    ensures row.carry_over >= 0.0
  {
    MonthRow(id, b.workspaceId, userId, b.year.value.Floor, b.month.value.Floor,
      if Truthy(b.title) then b.title else None,
      b.income.value, if b.carryOver.Num? then b.carryOver.value else 0.0)
  }

  const CREATE_FALLBACK: string := "Failed to create month"

  /** `POST /api/months` for the signed-in user `user` (None when nobody is); `dbError`
      is the insert's error, if any. */
  function CreateMonth(user: Option<string>, b: CreateMonthInput, newId: string,
                       dbError: Option<string>): (resp: Response<MonthRow>)
    ensures user.None? ==> resp == Fail(401, UNAUTHORIZED)
    ensures user.Some? && !ValidCreateMonth(b) ==> resp == Fail(400, "Invalid input")
    ensures user.Some? && ValidCreateMonth(b) && dbError.Some? ==>
      resp == Failure(Error(dbError.value), CREATE_FALLBACK)
    ensures resp.Ok? <==> user.Some? && ValidCreateMonth(b) && dbError.None?
    ensures resp.Ok? ==> resp.data == NewMonthRow(newId, b, user.value)
  {
    if user.None? then Failure(Error(UNAUTHORIZED), CREATE_FALLBACK)
    else if !ValidCreateMonth(b) then Failure(ZodError, CREATE_FALLBACK)
    else if dbError.Some? then Failure(Error(dbError.value), CREATE_FALLBACK)
    else Ok(NewMonthRow(newId, b, user.value))
  }

  /** A created month always lists under its own workspace. */
  lemma CreatedMonthIsListed(table: seq<MonthRow>, user: Option<string>, b: CreateMonthInput, newId: string)
    requires CreateMonth(user, b, newId, None).Ok?
    ensures var row := CreateMonth(user, b, newId, None).data;
      row in ListMonths(table + [row], Some(b.workspaceId))
  {
  }
}
