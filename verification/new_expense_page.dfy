/** The new-expense form: its line-item editor, the checks it runs before submitting
    and the request body it sends to `POST /api/expenses`. */
module NewExpensePage {
  import opened Common
  import opened Text

  /** One line of the form; every number is still the text typed into its field. */
  datatype LineItem = LineItem(
    itemName: string,
    budgetItemId: string,
    amount: string,
    needReimburse: bool,
    reimbursementAmount: string)

  /** The line a fresh form starts with and `Add item` appends. */
  const BlankLine: LineItem := LineItem("", "", "", false, "")

  /** A budget item offered in the line's drop-down. */
  datatype BudgetChoice = BudgetChoice(
    id: string,
    budget_type_id: string,
    name: string,
    budget_amount: real,
    remaining: real)

  /** One field edit, carrying the new value of the field it names. */
  datatype FieldEdit =
    | SetItemName(text: string)
    | SetBudgetItemId(text: string)
    | SetAmount(text: string)
    | SetNeedReimburse(flag: bool)
    | SetReimbursementAmount(text: string)

  // ---------------------------------------------------------------- line editing

  /** `addLineItem`: the lines followed by one blank line. */
  function WithLineAdded(lines: seq<LineItem>): (r: seq<LineItem>)
    ensures |r| == |lines| + 1
    ensures r[..|lines|] == lines
    ensures r[|lines|] == BlankLine
  {
    lines + [BlankLine]
  }

  /** `removeLineItem`: keeps every line whose position differs from `index`. */
  function WithoutLine(lines: seq<LineItem>, index: int): (r: seq<LineItem>)
    ensures 0 <= index < |lines| ==> r == lines[..index] + lines[index + 1..]
    ensures (index < 0 || index >= |lines|) ==> r == lines
  {
    if |lines| == 0 then []
    else if index == 0 then WithoutLine(lines[1..], index - 1)
    else
      var rest := WithoutLine(lines[1..], index - 1);
      assert 0 < index < |lines| ==> lines[1..][..index - 1] == lines[1..index];
      [lines[0]] + rest
  }

  /** Removing a line shortens the list by one, and the lines before and after it keep
      their relative order. */
  lemma RemoveTakesOutOneLine(lines: seq<LineItem>, index: int)
    requires 0 <= index < |lines|
    ensures |WithoutLine(lines, index)| == |lines| - 1
    ensures forall k :: 0 <= k < index ==> WithoutLine(lines, index)[k] == lines[k]
    ensures forall k :: index <= k < |lines| - 1 ==> WithoutLine(lines, index)[k] == lines[k + 1]
  {
    var r := WithoutLine(lines, index);
    var before, after := lines[..index], lines[index + 1..];
    assert r == before + after;
    forall k | index <= k < |lines| - 1 ensures r[k] == lines[k + 1] {
      assert r[k] == after[k - index];
    }
  }

  /** Removing the line that `Add item` just appended gives back the previous lines. */
  lemma RemoveUndoesAdd(lines: seq<LineItem>)
    ensures WithoutLine(WithLineAdded(lines), |lines|) == lines
  {
  }

  /** The remove control is rendered only while more than one line exists. */
  predicate CanRemove(lines: seq<LineItem>)
  {
    |lines| > 1
  }

  /** Removing through the control never empties the list. */
  lemma RemoveKeepsALine(lines: seq<LineItem>, index: int)
    requires CanRemove(lines)
    ensures |WithoutLine(lines, index)| >= 1
  {
  }

  /** `{ ...line, [field]: value }` followed by the reimbursement default: turning the flag
      on copies the amount into the reimbursement amount, turning it off clears it. */
  function Updated(line: LineItem, edit: FieldEdit): (r: LineItem)
    ensures edit.SetItemName? ==> r == line.(itemName := edit.text)
    ensures edit.SetBudgetItemId? ==> r == line.(budgetItemId := edit.text)
    ensures edit.SetAmount? ==> r == line.(amount := edit.text)
    ensures edit.SetReimbursementAmount? ==> r == line.(reimbursementAmount := edit.text)
    ensures edit.SetNeedReimburse? ==>
      r.itemName == line.itemName && r.budgetItemId == line.budgetItemId && r.amount == line.amount
      && r.needReimburse == edit.flag
      && r.reimbursementAmount == if edit.flag then line.amount else ""
  {
    match edit
    case SetItemName(t) => line.(itemName := t)
    case SetBudgetItemId(t) => line.(budgetItemId := t)
    case SetAmount(t) => line.(amount := t)
    case SetReimbursementAmount(t) => line.(reimbursementAmount := t)
    case SetNeedReimburse(b) =>
      var changed := line.(needReimburse := b);
      if b then changed.(reimbursementAmount := changed.amount)
      else changed.(reimbursementAmount := "")
  }

  /** Right after the flag is set, a reimbursable line asks back exactly its amount and a
      non-reimbursable line asks back nothing. */
  lemma FlagEditSetsDefault(line: LineItem, flag: bool)
    ensures Updated(line, SetNeedReimburse(flag)).needReimburse == flag
    ensures flag ==> Updated(line, SetNeedReimburse(flag)).reimbursementAmount == line.amount
    ensures !flag ==> Updated(line, SetNeedReimburse(flag)).reimbursementAmount == ""
  {
  }

  // ---------------------------------------------------------------- submit checks

  /** A line `handleSubmit` calls incomplete: a blank name, or no budget item or amount. */
  predicate Incomplete(li: LineItem)
    ensures !Incomplete(li) ==> |li.itemName| > 0 && |li.budgetItemId| > 0 && |li.amount| > 0
  {
    IsBlank(li.itemName) || li.budgetItemId == "" || li.amount == ""
  }

  /** The reimbursement check on one line. `reimbAmount > amount` is false when the
      amount does not parse, so such a line is not refused by this comparison. */
  predicate ReimbursementRefused(li: LineItem, parse: string -> Parsed)
    ensures !li.needReimburse ==> !ReimbursementRefused(li, parse)
    ensures li.needReimburse && !ReimbursementRefused(li, parse) ==>
      parse(li.reimbursementAmount).Number? && parse(li.reimbursementAmount).value >= 0.0
      && (parse(li.amount).Number? ==> parse(li.reimbursementAmount).value <= parse(li.amount).value)
  {
    li.needReimburse &&
    var amount := parse(li.amount);
    var reimb := parse(li.reimbursementAmount);
    reimb.NaN? || reimb.value < 0.0 || (amount.Number? && reimb.value > amount.value)
  }

  /** The loop over the lines in `handleSubmit`: true when no line is refused. */
  method CheckReimbursements(lines: seq<LineItem>, parse: string -> Parsed) returns (ok: bool)
    ensures ok <==> forall k :: 0 <= k < |lines| ==> !ReimbursementRefused(lines[k], parse)
    ensures !ok ==> exists k :: 0 <= k < |lines| && lines[k].needReimburse
  {
    var i := 0;
    while i < |lines|
      invariant 0 <= i <= |lines|
      invariant forall k :: 0 <= k < i ==> !ReimbursementRefused(lines[k], parse)
    {
      var item := lines[i];
      var amount := parse(item.amount);
      if item.needReimburse {
        var reimbAmount := parse(item.reimbursementAmount);
        if reimbAmount.NaN? || reimbAmount.value < 0.0
           || (amount.Number? && reimbAmount.value > amount.value) {
          assert ReimbursementRefused(lines[i], parse);
          return false;
        }
      }
      i := i + 1;
    }
    return true;
  }

  /** An accepted reimbursable line whose amount parses asks back a number between 0 and
      that amount. */
  lemma AcceptedReimbursementBounded(li: LineItem, parse: string -> Parsed)
    requires li.needReimburse && !ReimbursementRefused(li, parse) && parse(li.amount).Number?
    ensures parse(li.reimbursementAmount).Number?
    ensures 0.0 <= parse(li.reimbursementAmount).value <= parse(li.amount).value
  {
  }

  // ---------------------------------------------------------------- request body

  /** One entry of `items` in the request body. */
  datatype PayloadItem = PayloadItem(
    itemName: string,
    budgetItemId: string,
    amount: Parsed,
    needReimburse: bool,
    reimbursementAmount: Option<Parsed>)

  /** The body `handleSubmit` posts. */
  datatype ExpensePayload = ExpensePayload(
    monthId: string,
    date: string,
    expenseName: string,
    note: Option<string>,
    items: seq<PayloadItem>)

  function PayloadItemOf(li: LineItem, parse: string -> Parsed): (p: PayloadItem)
    ensures p.itemName == li.itemName && p.budgetItemId == li.budgetItemId
    ensures p.amount == parse(li.amount) && p.needReimburse == li.needReimburse
    ensures p.reimbursementAmount.Some? <==> li.needReimburse
    ensures li.needReimburse ==> p.reimbursementAmount == Some(parse(li.reimbursementAmount))
  {
    PayloadItem(li.itemName, li.budgetItemId, parse(li.amount), li.needReimburse,
      if li.needReimburse then Some(parse(li.reimbursementAmount)) else None)
  }

  /** The request body: `note || undefined`, and one item per line in order. */
  function PayloadOf(monthId: string, date: string, expenseName: string, note: string,
                     lines: seq<LineItem>, parse: string -> Parsed): (p: ExpensePayload)
    ensures p.monthId == monthId && p.date == date && p.expenseName == expenseName
    ensures p.note.None? <==> note == ""
    ensures p.note.Some? ==> p.note.value == note
    ensures |p.items| == |lines|
    ensures forall k :: 0 <= k < |lines| ==> p.items[k] == PayloadItemOf(lines[k], parse)
  {
    ExpensePayload(monthId, date, expenseName, if note == "" then None else Some(note),
      seq(|lines|, k requires 0 <= k < |lines| => PayloadItemOf(lines[k], parse)))
  }

  /** Why `handleSubmit` stopped before posting. */
  datatype Refusal = NoMonth | NoExpenseName | IncompleteLines | BadReimbursement

  datatype SubmitOutcome = Refused(reason: Refusal) | Posted(payload: ExpensePayload)

  // ---------------------------------------------------------------- form state

  /** The state of the new-expense form. */
  class NewExpenseForm {
    var selectedMonthId: Option<string>
    var budgetItems: seq<BudgetChoice>
    var expenseName: string
    var date: string
    var note: string
    var lineItems: seq<LineItem>

    /** A fresh form: no month, today's date and one blank line. */
    constructor (today: string)
      ensures selectedMonthId.None? && budgetItems == []
      ensures expenseName == "" && date == today && note == "" && lineItems == [BlankLine]
    {
      selectedMonthId := None;
      budgetItems := [];
      expenseName := "";
      date := today;
      note := "";
      lineItems := [BlankLine];
    }

    /** The workspace effect: when a workspace is set, the month selection, the budget
        items and the whole form are reset. */
    method WorkspaceChanged(workspaceId: Option<string>, today: string)
      modifies this
      ensures !Truthy(workspaceId) ==> unchanged(this)
      ensures Truthy(workspaceId) ==>
        selectedMonthId == Some("") && budgetItems == [] && expenseName == ""
        && date == today && note == "" && lineItems == [BlankLine]
    {
      if Truthy(workspaceId) {
        selectedMonthId := Some("");
        budgetItems := [];
        expenseName := "";
        date := today;
        note := "";
        lineItems := [BlankLine];
      }
    }

    method AddLineItem()
      modifies this
      ensures lineItems == WithLineAdded(old(lineItems))
      ensures selectedMonthId == old(selectedMonthId) && budgetItems == old(budgetItems)
      ensures expenseName == old(expenseName) && date == old(date) && note == old(note)
    {
      lineItems := WithLineAdded(lineItems);
    }

    method RemoveLineItem(index: int)
      modifies this
      ensures lineItems == WithoutLine(old(lineItems), index)
      ensures selectedMonthId == old(selectedMonthId) && budgetItems == old(budgetItems)
      ensures expenseName == old(expenseName) && date == old(date) && note == old(note)
    {
      lineItems := WithoutLine(lineItems, index);
    }

    /** `updateLineItem`: copies the lines, replaces the one at `index` and applies the
        reimbursement default to the copy. The index is always that of a rendered line. */
    method UpdateLineItem(index: nat, edit: FieldEdit)
      requires index < |lineItems|
      modifies this
      ensures lineItems == old(lineItems)[index := Updated(old(lineItems)[index], edit)]
      ensures selectedMonthId == old(selectedMonthId) && budgetItems == old(budgetItems)
      ensures expenseName == old(expenseName) && date == old(date) && note == old(note)
    {
      var updated := new LineItem[|lineItems|](k requires 0 <= k < |lineItems| reads this => lineItems[k]);
      var line := updated[index];
      updated[index] := match edit
        case SetItemName(t) => line.(itemName := t)
        case SetBudgetItemId(t) => line.(budgetItemId := t)
        case SetAmount(t) => line.(amount := t)
        case SetReimbursementAmount(t) => line.(reimbursementAmount := t)
        case SetNeedReimburse(b) => line.(needReimburse := b);
      if edit.SetNeedReimburse? && edit.flag {
        updated[index] := updated[index].(reimbursementAmount := updated[index].amount);
      }
      if edit.SetNeedReimburse? && !edit.flag {
        updated[index] := updated[index].(reimbursementAmount := "");
      }
      lineItems := updated[..];
    }

    /** `handleSubmit`: the checks in order, then the body it posts. */
    method Submit(parse: string -> Parsed) returns (outcome: SubmitOutcome)
      ensures outcome == Refused(NoMonth) <==> !Truthy(selectedMonthId)
      ensures outcome == Refused(NoExpenseName) <==> Truthy(selectedMonthId) && IsBlank(expenseName)
      ensures outcome == Refused(IncompleteLines) <==>
        Truthy(selectedMonthId) && !IsBlank(expenseName)
        && (|lineItems| == 0 || exists k :: 0 <= k < |lineItems| && Incomplete(lineItems[k]))
      ensures outcome == Refused(BadReimbursement) <==>
        Truthy(selectedMonthId) && !IsBlank(expenseName)
        && |lineItems| > 0 && (forall k :: 0 <= k < |lineItems| ==> !Incomplete(lineItems[k]))
        && exists k :: 0 <= k < |lineItems| && ReimbursementRefused(lineItems[k], parse)
      ensures outcome.Posted? ==>
        outcome.payload == PayloadOf(selectedMonthId.value, date, expenseName, note, lineItems, parse)
    {
      if !Truthy(selectedMonthId) {
        return Refused(NoMonth);
      }
      if IsBlank(expenseName) {
        return Refused(NoExpenseName);
      }
      if |lineItems| == 0 || exists k :: 0 <= k < |lineItems| && Incomplete(lineItems[k]) {
        return Refused(IncompleteLines);
      }
      var ok := CheckReimbursements(lineItems, parse);
      if !ok {
        return Refused(BadReimbursement);
      }
      outcome := Posted(PayloadOf(selectedMonthId.value, date, expenseName, note, lineItems, parse));
    }
  }

  /** A posted body has at least one line, and no reimbursable entry asks back a missing
      or negative amount, or more than its own amount when that parsed. */
  lemma PostedPayloadChecked(monthId: string, date: string, expenseName: string, note: string,
                             lines: seq<LineItem>, parse: string -> Parsed)
    requires |lines| > 0 && forall k :: 0 <= k < |lines| ==> !Incomplete(lines[k])
    requires forall k :: 0 <= k < |lines| ==> !ReimbursementRefused(lines[k], parse)
    ensures var p := PayloadOf(monthId, date, expenseName, note, lines, parse);
      |p.items| >= 1
      && forall k :: 0 <= k < |p.items| && p.items[k].needReimburse ==>
           p.items[k].reimbursementAmount.Some? && p.items[k].reimbursementAmount.value.Number?
           && p.items[k].reimbursementAmount.value.value >= 0.0
           && (p.items[k].amount.Number? ==>
                 p.items[k].reimbursementAmount.value.value <= p.items[k].amount.value)
  {
    var p := PayloadOf(monthId, date, expenseName, note, lines, parse);
    forall k | 0 <= k < |p.items| && p.items[k].needReimburse
      ensures p.items[k].reimbursementAmount.Some? && p.items[k].reimbursementAmount.value.Number?
      ensures p.items[k].reimbursementAmount.value.value >= 0.0
      ensures p.items[k].amount.Number? ==>
        p.items[k].reimbursementAmount.value.value <= p.items[k].amount.value
    {
      assert p.items[k] == PayloadItemOf(lines[k], parse);
      assert !ReimbursementRefused(lines[k], parse);
    }
  }
}
