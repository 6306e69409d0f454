/** The budget editor: per-type and grand totals, the items it displays, the requests
    its create and update forms send, and the confirmation gate in front of the
    saving-flag toggle. */
module BudgetPage {
  import opened Common
  import opened Text
  import opened Seqs
  import opened Ledger

  datatype BudgetType = BudgetType(id: string, name: string, order: int, month_id: string)

  datatype BudgetItem = BudgetItem(
    id: string,
    budget_type_id: string,
    name: string,
    budget_amount: real,
    order: int,
    is_saving: bool)

  /** `canEdit`: the role is known and is OWNER or EDITOR, so a viewer, and a page whose
      role is not known yet, cannot edit. */
  predicate CanEdit(role: Option<Role>)
    ensures CanEdit(role) <==> role.Some? && role.value != VIEWER
  {
    role.Some? && (role.value == OWNER || role.value == EDITOR)
  }

  // ---------------------------------------------------------------- totals

  function OfType(typeId: string): BudgetItem -> bool
  {
    (item: BudgetItem) => item.budget_type_id == typeId
  }

  function BudgetAmount(item: BudgetItem): real
  {
    item.budget_amount
  }

  /** `getTypeTotalBudget`: the budget amounts of the items carrying `typeId`, added up;
      nothing when no item carries it, and never negative when no amount is. */
  function TypeTotal(items: seq<BudgetItem>, typeId: string): (total: real)
    ensures (forall k :: 0 <= k < |items| ==> items[k].budget_type_id != typeId) ==> total == 0.0
    ensures (forall k :: 0 <= k < |items| ==> items[k].budget_amount >= 0.0) ==> total >= 0.0
  {
    var mine := Filter(items, OfType(typeId));
    assert (forall k :: 0 <= k < |items| ==> items[k].budget_amount >= 0.0) ==> Sum(mine, BudgetAmount) >= 0.0 by {
      if forall k :: 0 <= k < |items| ==> items[k].budget_amount >= 0.0 {
        assert forall k :: 0 <= k < |mine| ==> mine[k] in items;
        SumNonNegative(mine, BudgetAmount);
      }
    }
    assert (forall k :: 0 <= k < |items| ==> items[k].budget_type_id != typeId) ==> |mine| == 0 by {
      if |mine| > 0 {
        assert mine[0] in items && OfType(typeId)(mine[0]);
      }
    }
    Sum(mine, BudgetAmount)
  }

  function TypeTotalOf(items: seq<BudgetItem>): BudgetType -> real
  {
    (t: BudgetType) => TypeTotal(items, t.id)
  }

  /** The grand total: the type totals of the listed types, added up; never negative when
      no amount is. */
  function GrandTotal(types: seq<BudgetType>, items: seq<BudgetItem>): (total: real)
    ensures (forall k :: 0 <= k < |items| ==> items[k].budget_amount >= 0.0) ==> total >= 0.0
  {
    assert (forall k :: 0 <= k < |items| ==> items[k].budget_amount >= 0.0) ==> Sum(types, TypeTotalOf(items)) >= 0.0 by {
      if forall k :: 0 <= k < |items| ==> items[k].budget_amount >= 0.0 {
        SumNonNegative(types, TypeTotalOf(items));
      }
    }
    Sum(types, TypeTotalOf(items))
  }

  /** What one item adds to a type's total. */
  lemma {:induction false} TypeTotalCons(x: BudgetItem, rest: seq<BudgetItem>, typeId: string)
    ensures TypeTotal([x] + rest, typeId)
      == (if x.budget_type_id == typeId then x.budget_amount else 0.0) + TypeTotal(rest, typeId)
  {
    assert ([x] + rest)[1..] == rest;
  }

  /** The part of item `x`'s amount that type `t`'s total counts. */
  function ShareOf(x: BudgetItem): BudgetType -> real
  {
    (t: BudgetType) => if x.budget_type_id == t.id then x.budget_amount else 0.0
  }

  lemma {:induction false} GrandTotalCons(types: seq<BudgetType>, x: BudgetItem, rest: seq<BudgetItem>)
    ensures GrandTotal(types, [x] + rest) == GrandTotal(types, rest) + Sum(types, ShareOf(x))
  {
    if |types| > 0 {
      TypeTotalCons(x, rest, types[0].id);
      GrandTotalCons(types[1..], x, rest);
    }
  }

  /** Type ids are pairwise distinct. */
  predicate DistinctIds(types: seq<BudgetType>)
  {
    forall i, j :: 0 <= i < j < |types| ==> types[i].id != types[j].id
  }

  predicate HasTypeOf(types: seq<BudgetType>, x: BudgetItem)
  {
    exists j :: 0 <= j < |types| && types[j].id == x.budget_type_id
  }

  lemma {:induction false} ShareOfForeignItem(types: seq<BudgetType>, x: BudgetItem)
    requires !HasTypeOf(types, x)
    ensures Sum(types, ShareOf(x)) == 0.0
  {
    if |types| > 0 {
      assert !HasTypeOf(types[1..], x);
      ShareOfForeignItem(types[1..], x);
    }
  }

  /** With distinct ids, an item of a listed type is counted exactly once. */
  lemma {:induction false} ShareOfListedItem(types: seq<BudgetType>, x: BudgetItem)
    requires DistinctIds(types) && HasTypeOf(types, x)
    ensures Sum(types, ShareOf(x)) == x.budget_amount
  {
    var rest := types[1..];
    if types[0].id == x.budget_type_id {
      assert !HasTypeOf(rest, x);
      ShareOfForeignItem(rest, x);
    } else {
      var j :| 0 <= j < |types| && types[j].id == x.budget_type_id;
      assert rest[j - 1].id == x.budget_type_id;
      ShareOfListedItem(rest, x);
    }
  }

  /** When the listed types have distinct ids and every item belongs to one of them, the
      grand total is the sum of every item's budget amount. */
  lemma {:induction false} GrandTotalCountsEveryItem(types: seq<BudgetType>, items: seq<BudgetItem>)
    requires DistinctIds(types)
    requires forall k :: 0 <= k < |items| ==> HasTypeOf(types, items[k])
    ensures GrandTotal(types, items) == Sum(items, BudgetAmount)
  {
    if |items| == 0 {
      ZeroTotals(types);
    } else {
      assert items == [items[0]] + items[1..];
      GrandTotalCons(types, items[0], items[1..]);
      ShareOfListedItem(types, items[0]);
      GrandTotalCountsEveryItem(types, items[1..]);
    }
  }

  lemma {:induction false} ZeroTotals(types: seq<BudgetType>)
    ensures GrandTotal(types, []) == 0.0
  {
    if |types| > 0 {
      ZeroTotals(types[1..]);
    }
  }

  // ---------------------------------------------------------------- displayed items

  function Shown(selectedTypeId: Option<string>, savingsOnly: bool): BudgetItem -> bool
  {
    (item: BudgetItem) => selectedTypeId == Some(item.budget_type_id) && (!savingsOnly || item.is_saving)
  }

  /** `selectedTypeItems`: the items of the selected type, only the saving ones when the
      savings-only filter is on; with no type selected nothing is shown. */
  function SelectedTypeItems(items: seq<BudgetItem>, selectedTypeId: Option<string>,
                             savingsOnly: bool): (r: seq<BudgetItem>)
    ensures forall x :: x in r <==>
      x in items && selectedTypeId == Some(x.budget_type_id) && (savingsOnly ==> x.is_saving)
    ensures |r| <= |items|
  {
    Filter(items, Shown(selectedTypeId, savingsOnly))
  }

  /** The savings-only filter never adds an item, and without it the list holds every
      item of the selected type. */
  lemma SavingsFilterOnlyRemoves(items: seq<BudgetItem>, typeId: string)
    ensures forall x :: x in SelectedTypeItems(items, Some(typeId), true) ==>
      x in SelectedTypeItems(items, Some(typeId), false) && x.is_saving
    ensures SelectedTypeItems(items, Some(typeId), false) == Filter(items, OfType(typeId))
  {
    FilterSameTest(items, Shown(Some(typeId), false), OfType(typeId));
  }

  lemma {:induction false} FilterSameTest(items: seq<BudgetItem>, p: BudgetItem -> bool, q: BudgetItem -> bool)
    requires forall x :: p(x) == q(x)
    ensures Filter(items, p) == Filter(items, q)
  {
    if |items| > 0 {
      FilterSameTest(items[1..], p, q);
    }
  }

  // ---------------------------------------------------------------- create and update

  /** A new item's order is the number of items already in the selected type. */
  function NewItemOrder(items: seq<BudgetItem>, typeId: string): (order: nat)
    ensures order <= |items|
  {
    |Filter(items, OfType(typeId))|
  }

  /** Adding an item to a type moves the next order of that type up by exactly one and
      leaves every other type's next order alone. */
  lemma {:induction false} NewItemOrderCounts(items: seq<BudgetItem>, x: BudgetItem, typeId: string)
    ensures NewItemOrder(items + [x], typeId)
      == NewItemOrder(items, typeId) + (if x.budget_type_id == typeId then 1 else 0)
  {
    if |items| == 0 {
      assert items + [x] == [x];
    } else {
      assert (items + [x])[1..] == items[1..] + [x];
      NewItemOrderCounts(items[1..], x, typeId);
    }
  }

  datatype TypeRequest = TypeRequest(monthId: string, name: string, order: int)

  datatype ItemRequest = ItemRequest(
    budgetTypeId: string,
    name: string,
    budgetAmount: real,
    order: int,
    isSaving: bool)

  datatype ItemUpdate = ItemUpdate(itemId: string, name: string, budgetAmount: real, isSaving: bool)

  /** What a form handler does: returns silently, alerts about the amount, or posts. */
  datatype FormOutcome<R> = Ignored | InvalidAmount | Send(request: R)

  /** `handleCreateType`: a new type's order is the number of types already listed. */
  function CreateType(newTypeName: string, selectedMonthId: Option<string>,
                      types: seq<BudgetType>): (out: FormOutcome<TypeRequest>)
    ensures out.Ignored? <==> IsBlank(newTypeName) || !Truthy(selectedMonthId)
    ensures out.Send? ==>
      out.request == TypeRequest(selectedMonthId.value, newTypeName, |types|)
    ensures !out.InvalidAmount?
  {
    if IsBlank(newTypeName) || !Truthy(selectedMonthId) then Ignored
    else Send(TypeRequest(selectedMonthId.value, newTypeName, |types|))
  }

  /** The amount test both item forms apply to the parsed amount. */
  predicate AmountRefused(amount: Parsed)
    ensures !AmountRefused(amount) <==> amount.Number? && amount.value >= 0.0
  {
    amount.NaN? || amount.value < 0.0
  }

  /** `handleCreateItem`. */
  function CreateItem(newItemName: string, newItemAmount: string, newItemIsSaving: bool,
                      selectedTypeId: Option<string>, items: seq<BudgetItem>,
                      parse: string -> Parsed): (out: FormOutcome<ItemRequest>)
    ensures out.Ignored? <==> IsBlank(newItemName) || !Truthy(selectedTypeId)
    ensures out.InvalidAmount? <==>
      !IsBlank(newItemName) && Truthy(selectedTypeId) && AmountRefused(parse(newItemAmount))
    ensures out.Send? ==>
      out.request.budgetTypeId == selectedTypeId.value && out.request.name == newItemName
      && parse(newItemAmount) == Number(out.request.budgetAmount) && out.request.budgetAmount >= 0.0
      && out.request.order == |SelectedTypeItems(items, selectedTypeId, false)|
      && out.request.isSaving == newItemIsSaving
  {
    if IsBlank(newItemName) || !Truthy(selectedTypeId) then Ignored
    else
      var amount := parse(newItemAmount);
      if AmountRefused(amount) then InvalidAmount
      else
        SavingsFilterOnlyRemoves(items, selectedTypeId.value);
        Send(ItemRequest(selectedTypeId.value, newItemName, amount.value,
                         NewItemOrder(items, selectedTypeId.value), newItemIsSaving))
  }

  /** `handleUpdateItem`. */
  function UpdateItem(itemId: string, editItemName: string, editItemAmount: string,
                      editItemIsSaving: bool, parse: string -> Parsed): (out: FormOutcome<ItemUpdate>)
    ensures out.Ignored? <==> IsBlank(editItemName)
    ensures out.InvalidAmount? <==> !IsBlank(editItemName) && AmountRefused(parse(editItemAmount))
    ensures out.Send? ==>
      out.request.itemId == itemId && out.request.name == editItemName
      && parse(editItemAmount) == Number(out.request.budgetAmount) && out.request.budgetAmount >= 0.0
      && out.request.isSaving == editItemIsSaving
  {
    if IsBlank(editItemName) then Ignored
    else
      var amount := parse(editItemAmount);
      if AmountRefused(amount) then InvalidAmount
      else Send(ItemUpdate(itemId, editItemName, amount.value, editItemIsSaving))
  }

  // ---------------------------------------------------------------- saving toggle

  /** The preview record `GET /api/budget-items/{id}/preview-toggle` returns; its values
      are computed by the server and are inputs here. */
  datatype TogglePreview = TogglePreview(
    budgetItemId: string,
    budgetItemName: string,
    budgetItemAmount: real,
    currentIsSaving: bool,
    hasExpenses: bool,
    expenseCount: int,
    totalSpentOnThisItem: real,
    totalSavingBefore: real,
    totalSavingAfter: real,
    spentOnSavingBudgets: real,
    savedRemainingBefore: real,
    savedRemainingAfter: real)

  /** How the preview request ended: it threw, or it answered with its `ok` flag and data. */
  datatype PreviewReply = PreviewFailed | PreviewReturned(ok: bool, data: TogglePreview)

  /** `POST /api/budget-items/{id}/update` with body `{ isSaving }`. */
  datatype SavingUpdate = SavingUpdate(itemId: string, isSaving: bool)

  /** The toggle waits for confirmation exactly when it turns saving off and the preview
      answered successfully that the item has expenses. */
  predicate NeedsConfirmation(currentValue: bool, reply: PreviewReply)
  {
    currentValue && reply.PreviewReturned? && reply.ok && reply.data.hasExpenses
  }

  predicate ItemListed(items: seq<BudgetItem>, itemId: string)
  {
    exists k :: 0 <= k < |items| && items[k].id == itemId
  }

  /** The page's toggle state: the confirmation modal, the preview it shows, the pending
      item and value, and the saving updates posted so far. */
  class SavingToggle {
    var budgetItems: seq<BudgetItem>
    var showConfirmModal: bool
    var confirmPreview: Option<TogglePreview>
    var pendingToggleItemId: Option<string>
    var pendingToggleValue: bool
    var sent: seq<SavingUpdate>

    /** The modal is open exactly while a preview and a pending item are held, and it is
        only ever opened to turn saving off for an item with expenses. */
    predicate Valid()
      reads this
    {
      (showConfirmModal <==> confirmPreview.Some?)
      && (showConfirmModal <==> pendingToggleItemId.Some?)
      && (showConfirmModal ==> confirmPreview.value.hasExpenses && !pendingToggleValue)
    }

    constructor (items: seq<BudgetItem>)
      ensures Valid()
      ensures budgetItems == items && !showConfirmModal && sent == []
    {
      budgetItems := items;
      showConfirmModal := false;
      confirmPreview := None;
      pendingToggleItemId := None;
      pendingToggleValue := false;
      sent := [];
    }

    /** `toggleSavingDirect`: posts the new value for the item. */
    method ToggleSavingDirect(itemId: string, newValue: bool)
      modifies this
      ensures sent == old(sent) + [SavingUpdate(itemId, newValue)]
      ensures budgetItems == old(budgetItems) && showConfirmModal == old(showConfirmModal)
      ensures confirmPreview == old(confirmPreview) && pendingToggleItemId == old(pendingToggleItemId)
      ensures pendingToggleValue == old(pendingToggleValue)
    {
      sent := sent + [SavingUpdate(itemId, newValue)];
    }

    /** `handleToggleSaving` for the checkbox of item `itemId`, currently `currentValue`;
        `reply` is how the preview request ends (asked only when turning saving off). */
    method HandleToggleSaving(itemId: string, currentValue: bool, reply: PreviewReply)
      requires Valid()
      modifies this
      ensures Valid()
      ensures budgetItems == old(budgetItems)
      ensures !ItemListed(budgetItems, itemId) ==> unchanged(this)
      ensures ItemListed(budgetItems, itemId) && NeedsConfirmation(currentValue, reply) ==>
        sent == old(sent) && showConfirmModal && confirmPreview == Some(reply.data)
        && pendingToggleItemId == Some(itemId) && pendingToggleValue == !currentValue
      ensures ItemListed(budgetItems, itemId) && !NeedsConfirmation(currentValue, reply) ==>
        sent == old(sent) + [SavingUpdate(itemId, !currentValue)]
        && showConfirmModal == old(showConfirmModal) && confirmPreview == old(confirmPreview)
        && pendingToggleItemId == old(pendingToggleItemId) && pendingToggleValue == old(pendingToggleValue)
    {
      if !ItemListed(budgetItems, itemId) {
        return;
      }
      if currentValue {
        if reply.PreviewReturned? && reply.ok && reply.data.hasExpenses {
          confirmPreview := Some(reply.data);
          pendingToggleItemId := Some(itemId);
          pendingToggleValue := !currentValue;
          showConfirmModal := true;
          return;
        }
      }
      ToggleSavingDirect(itemId, !currentValue);
    }

    /** `handleConfirmToggle`: posts the pending value when a pending item is held, then
        closes the modal. */
    method HandleConfirmToggle()
      requires Valid()
      modifies this
      ensures Valid() && !showConfirmModal
      ensures confirmPreview.None? && pendingToggleItemId.None?
      ensures budgetItems == old(budgetItems) && pendingToggleValue == old(pendingToggleValue)
      ensures Truthy(old(pendingToggleItemId)) ==>
        sent == old(sent) + [SavingUpdate(old(pendingToggleItemId).value, old(pendingToggleValue))]
      ensures !Truthy(old(pendingToggleItemId)) ==> sent == old(sent)
    {
      if Truthy(pendingToggleItemId) {
        ToggleSavingDirect(pendingToggleItemId.value, pendingToggleValue);
      }
      showConfirmModal := false;
      confirmPreview := None;
      pendingToggleItemId := None;
    }

    /** `handleCancelToggle`: closes the modal and posts nothing. */
    method HandleCancelToggle()
      requires Valid()
      modifies this
      ensures Valid() && !showConfirmModal
      ensures confirmPreview.None? && pendingToggleItemId.None?
      ensures sent == old(sent) && budgetItems == old(budgetItems)
      ensures pendingToggleValue == old(pendingToggleValue)
    {
      showConfirmModal := false;
      confirmPreview := None;
      pendingToggleItemId := None;
    }
  }

  /** A toggle that had to wait, once confirmed, posts the very update an ungated toggle
      posts: saving turned off for that item. */
  method ConfirmedToggleMatchesDirect(g: SavingToggle, itemId: string, reply: PreviewReply)
    requires g.Valid() && ItemListed(g.budgetItems, itemId) && itemId != ""
    requires NeedsConfirmation(true, reply)
    modifies g
    ensures g.Valid() && !g.showConfirmModal
    ensures g.sent == old(g.sent) + [SavingUpdate(itemId, false)]
  {
    g.HandleToggleSaving(itemId, true, reply);
    assert g.sent == old(g.sent);
    g.HandleConfirmToggle();
  }

  /** A toggle that had to wait, once cancelled, posts nothing at all. */
  method CancelledToggleSendsNothing(g: SavingToggle, itemId: string, reply: PreviewReply)
    requires g.Valid() && ItemListed(g.budgetItems, itemId)
    requires NeedsConfirmation(true, reply)
    modifies g
    ensures g.Valid() && !g.showConfirmModal
    ensures g.sent == old(g.sent)
  {
    g.HandleToggleSaving(itemId, true, reply);
    g.HandleCancelToggle();
  }
}
