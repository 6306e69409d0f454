/** What the pages send, read as the API routes read it: the expense form's body against
    the expense schema, the budget editor's requests against the item and type schemas,
    and the reimbursement page's query against the reimbursement listing. */
module ClientServer {
  import opened Common
  import opened Seqs
  import opened Text
  import opened Schema
  import opened ExpensesRoute
  import opened NewExpensePage
  import BudgetPage
  import BudgetItemsRoute
  import BudgetTypesRoute
  import opened Ledger
  import opened ReimbursementsRoute
  import opened ReimbursementsPage

  // ---------------------------------------------------------------- expense body

  /** What the item schema asks of a line as the form posts it: a name, a UUID budget
      item, a non-negative amount, and a reimbursement amount that is left out or a
      non-negative number. */
  predicate LineAccepted(p: PayloadItem)
  {
    |p.itemName| >= 1 && IsUuid(p.budgetItemId) && p.amount.Number? && p.amount.value >= 0.0
    && (p.reimbursementAmount.Some? ==>
          p.reimbursementAmount.value.Number? && p.reimbursementAmount.value.value >= 0.0)
  }

  /** A line as the server reads it: NaN amounts arrive as `null`, which the schema
      refuses, so the item schema accepts it exactly when the line is acceptable. */
  function ServerItem(p: PayloadItem): (i: ItemInput)
    ensures ValidItem(i) <==> LineAccepted(p)
    ensures i.reimburseTo.None?
  {
    ItemInput(p.itemName, p.budgetItemId, ToJson(p.amount), p.needReimburse,
      OptionalToJson(p.reimbursementAmount), None)
  }

  /** The body the expense route parses when the form posts `p`: left-out fields are
      absent, there is no `totalAmount` and no attachment, and each line is accepted
      exactly when it is acceptable. */
  function ToServerInput(p: ExpensePayload): (b: CreateExpenseInput)
    ensures b.totalAmount.Absent? && b.attachments.None?
    ensures |b.items| == |p.items|
    ensures forall k :: 0 <= k < |p.items| ==> (ValidItem(b.items[k]) <==> LineAccepted(p.items[k]))
  {
    CreateExpenseInput(p.monthId, p.date, p.expenseName, p.note, Absent,
      seq(|p.items|, k requires 0 <= k < |p.items| => ServerItem(p.items[k])), None)
  }

  /** As written, no body the form can post passes the expense schema: the schema
      requires `totalAmount` and the form never sends it, so every expense created from
      the form is answered with 400. */
  lemma FormExpenseAlwaysRefused(monthId: string, date: string, expenseName: string, note: string,
                                 lines: seq<LineItem>, parse: string -> Parsed, isUrl: UrlCheck)
    ensures !ValidCreateExpense(ToServerInput(PayloadOf(monthId, date, expenseName, note, lines, parse)), isUrl)
  {
  }

  /** A line's parsed amount as a number to add up; a NaN amount counts as 0. */
  function AmountValue(p: PayloadItem): real
  {
    if p.amount.Number? then p.amount.value else 0.0
  }

  /** The total of the parsed line amounts, as `reduce` with `+` computes it: NaN as soon
      as one amount is NaN, and otherwise the sum of the amounts. */
  function TotalOf(items: seq<PayloadItem>): (t: Parsed)
    ensures t.Number? <==> forall k :: 0 <= k < |items| ==> items[k].amount.Number?
    ensures t.Number? ==> t.value == Sum(items, AmountValue)
    ensures (forall k :: 0 <= k < |items| ==> items[k].amount.Number? && items[k].amount.value >= 0.0) ==>
      t.Number? && t.value >= 0.0
  {
    if |items| == 0 then Number(0.0)
    else
      var rest := TotalOf(items[1..]);
      assert forall k :: 1 <= k < |items| ==> items[k] == items[1..][k - 1];
      if items[0].amount.NaN? || rest.NaN? then NaN
      else Number(items[0].amount.value + rest.value)
  }

  /** The intended body: the posted one carrying `totalAmount`, which is present exactly
      when every line amount parsed, and is then the sum of those amounts. */
  function CorrectedServerInput(p: ExpensePayload): (b: CreateExpenseInput)
    ensures b.totalAmount.Num? <==> forall k :: 0 <= k < |p.items| ==> p.items[k].amount.Number?
    ensures b.totalAmount.Num? ==> b.totalAmount.value == Sum(p.items, AmountValue)
    ensures b.(totalAmount := Absent) == ToServerInput(p)
  {
    ToServerInput(p).(totalAmount := ToJson(TotalOf(p.items)))
  }

  /** What the expense schema asks of the form's payload once the total is sent: a UUID
      month, a `dddd-dd-dd` date, a name, and at least one line, every line acceptable. */
  predicate PayloadAccepted(p: ExpensePayload)
  {
    IsUuid(p.monthId) && MatchesDate(p.date) && |p.expenseName| >= 1 && |p.items| >= 1
    && forall k :: 0 <= k < |p.items| ==> LineAccepted(p.items[k])
  }

  /** With the total sent, the server accepts the body exactly when the payload is
      acceptable: the total then needs no check of its own. */
  lemma {:induction false} CorrectedBodyAcceptedIff(p: ExpensePayload, isUrl: UrlCheck)
    ensures ValidCreateExpense(CorrectedServerInput(p), isUrl) <==> PayloadAccepted(p)
  {
    var b := CorrectedServerInput(p);
    assert |b.items| == |p.items| && b.attachments.None?;
    assert forall k :: 0 <= k < |p.items| ==> (ValidItem(b.items[k]) <==> LineAccepted(p.items[k]));
    if PayloadAccepted(p) {
      var t := TotalOf(p.items);
      assert t.Number? && t.value >= 0.0;
    }
  }

  /** With the total sent, a form that passed its own checks, names a UUID month and
      budget items, a `dddd-dd-dd` date and non-negative amounts is accepted. */
  lemma CorrectedFormExpenseAccepted(monthId: string, date: string, expenseName: string, note: string,
                                     lines: seq<LineItem>, parse: string -> Parsed, isUrl: UrlCheck)
    requires IsUuid(monthId) && MatchesDate(date) && !IsBlank(expenseName)
    requires |lines| > 0
    requires forall k :: 0 <= k < |lines| ==> !Incomplete(lines[k]) && !ReimbursementRefused(lines[k], parse)
    requires forall k :: 0 <= k < |lines| ==>
      IsUuid(lines[k].budgetItemId) && parse(lines[k].amount).Number? && parse(lines[k].amount).value >= 0.0
    ensures ValidCreateExpense(CorrectedServerInput(PayloadOf(monthId, date, expenseName, note, lines, parse)), isUrl)
  {
    var p := PayloadOf(monthId, date, expenseName, note, lines, parse);
    var b := CorrectedServerInput(p);
    forall k | 0 <= k < |b.items| ensures ValidItem(b.items[k]) {
      var li := lines[k];
      assert p.items[k] == PayloadItemOf(li, parse);
      assert b.items[k] == ServerItem(p.items[k]);
      assert !ReimbursementRefused(li, parse);
    }
  }

  // ---------------------------------------------------------------- budget editor requests

  /** The item-creation body the budget editor posts. */
  function ItemRequestBody(r: BudgetPage.ItemRequest): (b: BudgetItemsRoute.CreateItemInput)
    ensures BudgetItemsRoute.ValidCreateItem(b) <==>
      IsUuid(r.budgetTypeId) && |r.name| >= 1 && r.budgetAmount >= 0.0
  {
    BudgetItemsRoute.CreateItemInput(r.budgetTypeId, r.name, Num(r.budgetAmount),
      Num(r.order as real), Some(r.isSaving))
  }

  /** An accepted item request is stored as the editor sent it: every field of the
      request reaches the row unchanged. */
  lemma ItemRequestStoredAsSent(r: BudgetPage.ItemRequest, newId: string)
    requires BudgetItemsRoute.ValidCreateItem(ItemRequestBody(r))
    ensures BudgetItemsRoute.NewItemRow(newId, ItemRequestBody(r))
      == BudgetItemsRoute.BudgetItemRow(newId, r.budgetTypeId, r.name, r.budgetAmount, r.order, r.isSaving)
  {
    var row := BudgetItemsRoute.NewItemRow(newId, ItemRequestBody(r));
    assert row.order as real == r.order as real;
  }

  /** An item the editor sends for a type with a UUID id is accepted, and is stored with
      the order the editor computed and the saving flag it chose. */
  lemma EditorItemAccepted(name: string, amount: string, isSaving: bool, typeId: string,
                           items: seq<BudgetPage.BudgetItem>, parse: string -> Parsed, newId: string)
    requires IsUuid(typeId)
    requires BudgetPage.CreateItem(name, amount, isSaving, Some(typeId), items, parse).Send?
    ensures var r := BudgetPage.CreateItem(name, amount, isSaving, Some(typeId), items, parse).request;
      BudgetItemsRoute.ValidCreateItem(ItemRequestBody(r))
      && BudgetItemsRoute.NewItemRow(newId, ItemRequestBody(r)).order == BudgetPage.NewItemOrder(items, typeId)
      && BudgetItemsRoute.NewItemRow(newId, ItemRequestBody(r)).is_saving == isSaving
  {
    var r := BudgetPage.CreateItem(name, amount, isSaving, Some(typeId), items, parse).request;
    BudgetPage.SavingsFilterOnlyRemoves(items, typeId);
  }

  /** A type the editor sends for a month with a UUID id is accepted, with the order the
      editor computed. */
  lemma EditorTypeAccepted(name: string, monthId: string, types: seq<BudgetPage.BudgetType>, newId: string)
    requires IsUuid(monthId)
    requires BudgetPage.CreateType(name, Some(monthId), types).Send?
    ensures var r := BudgetPage.CreateType(name, Some(monthId), types).request;
      var b := BudgetTypesRoute.CreateTypeInput(r.monthId, r.name, Num(r.order as real));
      BudgetTypesRoute.ValidCreateType(b) && BudgetTypesRoute.NewTypeRow(newId, b).order == |types|
  {
  }

  // ---------------------------------------------------------------- reimbursement query

  /** The lines the page receives for a filter and month, as written. */
  function PageListing(rows: seq<ReimbursementLine>, filter: StatusFilter,
                       selectedMonthId: Option<string>): seq<ReimbursementLine>
  {
    var params := QueryParams(filter, selectedMonthId);
    ListReimbursements(rows, ParamValue(params, "status"), ParamValue(params, "monthId"))
  }

  /** As written, the ALL filter leaves the status out, the route then falls back to
      PENDING, and ALL lists exactly what PENDING lists. */
  lemma AllFilterListsOnlyPending(rows: seq<ReimbursementLine>, selectedMonthId: Option<string>)
    ensures PageListing(rows, FilterAll, selectedMonthId) == PageListing(rows, FilterPending, selectedMonthId)
    ensures forall x :: x in PageListing(rows, FilterAll, selectedMonthId) ==> x.reimburse_status == PENDING
  {
    var all := QueryParams(FilterAll, selectedMonthId);
    var pending := QueryParams(FilterPending, selectedMonthId);
    assert ParamValue(all, "status") == None;
    assert ParamValue(pending, "status") == Some("PENDING");
    assert ParamValue(all, "monthId") == ParamValue(pending, "monthId");
    AbsentStatusMeansPending(rows, ParamValue(all, "monthId"));
    PendingSummaryCountsPendingLines(rows, selectedMonthId);
  }

  /** One approved reimbursable line: the ALL filter does not show it. */
  lemma AllFilterHidesApprovedLine()
    ensures var line := ReimbursementLine("l", "item", 10.0, Some(10.0), APPROVED, true, None, None);
      line !in PageListing([line], FilterAll, None)
  {
  }

  /** The intended query: the status is always sent, `ALL` included. */
  function IntendedQueryParams(filter: StatusFilter, selectedMonthId: Option<string>): (params: Params)
    ensures ParamValue(params, "status") == Some(FilterName(filter))
    ensures ParamValue(params, "monthId") == if Truthy(selectedMonthId) then selectedMonthId else None
  {
    [("status", FilterName(filter))]
    + (if Truthy(selectedMonthId) then [("monthId", selectedMonthId.value)] else [])
  }

  function IntendedPageListing(rows: seq<ReimbursementLine>, filter: StatusFilter,
                               selectedMonthId: Option<string>): seq<ReimbursementLine>
  {
    var params := IntendedQueryParams(filter, selectedMonthId);
    ListReimbursements(rows, ParamValue(params, "status"), ParamValue(params, "monthId"))
  }

  /** With the intended query, ALL lists every reimbursable line of the selected month,
      whatever its status. */
  lemma IntendedAllListsEveryStatus(rows: seq<ReimbursementLine>, selectedMonthId: Option<string>)
    ensures forall x :: x in IntendedPageListing(rows, FilterAll, selectedMonthId) <==>
      x in rows && x.need_reimburse
      && (Truthy(selectedMonthId) ==> x.expense.Some? && x.expense.value.month_id == selectedMonthId.value)
  {
    var params := IntendedQueryParams(FilterAll, selectedMonthId);
    assert EffectiveStatus(ParamValue(params, "status")) == "ALL";
  }

  /** The correction changes nothing for the other filters. */
  lemma IntendedOtherFiltersUnchanged(rows: seq<ReimbursementLine>, filter: StatusFilter,
                                      selectedMonthId: Option<string>)
    requires filter != FilterAll
    ensures IntendedPageListing(rows, filter, selectedMonthId) == PageListing(rows, filter, selectedMonthId)
  {
    var intended := IntendedQueryParams(filter, selectedMonthId);
    var written := QueryParams(filter, selectedMonthId);
    assert ParamValue(intended, "status") == ParamValue(written, "status");
    assert ParamValue(intended, "monthId") == ParamValue(written, "monthId");
  }

  /** Under the PENDING filter every listed line is pending and reimbursable, so the
      pending summary adds up pending reimbursements only. */
  lemma PendingSummaryCountsPendingLines(rows: seq<ReimbursementLine>, selectedMonthId: Option<string>)
    ensures forall x :: x in PageListing(rows, FilterPending, selectedMonthId) ==>
      x.reimburse_status == PENDING && x.need_reimburse
  {
    var params := QueryParams(FilterPending, selectedMonthId);
    assert EffectiveStatus(ParamValue(params, "status")) == "PENDING";
    forall x | x in PageListing(rows, FilterPending, selectedMonthId)
      ensures x.reimburse_status == PENDING && x.need_reimburse
    {
      assert StatusName(x.reimburse_status) == "PENDING";
    }
  }
}
