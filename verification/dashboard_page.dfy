/** The dashboard: the four summary figures over the month's budget items, the sections
    grouping items under their type, and what each item row shows. */
module DashboardPage {
  import opened Seqs
  import opened ProgressBar

  /** A budget item as the dashboard receives it; the spend figures, the remaining amount
      and the over-budget flag are computed by the server and are inputs here. */
  datatype DashboardItem = DashboardItem(
    id: string,
    budget_type_id: string,
    name: string,
    budget_amount: real,
    posted_spend: real,
    approved_reimbursed_spend: real,
    remaining: real,
    overBudget: bool)

  datatype DashboardType = DashboardType(id: string, name: string, order: int)

  function BudgetAmount(item: DashboardItem): real { item.budget_amount }

  function PostedSpend(item: DashboardItem): real { item.posted_spend }

  function ApprovedSpend(item: DashboardItem): real { item.approved_reimbursed_spend }

  /** What is left of one item: its budget less both kinds of spend. */
  function ItemLeft(item: DashboardItem): real
  {
    item.budget_amount - item.posted_spend - item.approved_reimbursed_spend
  }

  function TotalBudget(items: seq<DashboardItem>): real { Sum(items, BudgetAmount) }

  function TotalPosted(items: seq<DashboardItem>): real { Sum(items, PostedSpend) }

  function TotalApprovedReimbursed(items: seq<DashboardItem>): real { Sum(items, ApprovedSpend) }

  /** `totalRemaining`: the total budget less the total posted and the total approved
      reimbursed spend. */
  function TotalRemaining(items: seq<DashboardItem>): real
  {
    TotalBudget(items) - TotalPosted(items) - TotalApprovedReimbursed(items)
  }

  /** The remaining total is the sum of what is left of each item. */
  lemma {:induction false} TotalRemainingIsSumOfItems(items: seq<DashboardItem>)
    ensures TotalRemaining(items) == Sum(items, ItemLeft)
  {
    if |items| > 0 {
      TotalRemainingIsSumOfItems(items[1..]);
    }
  }

  /** The remaining figure is drawn in red exactly when it is negative. */
  predicate RemainingShownNegative(items: seq<DashboardItem>)
  {
    TotalRemaining(items) < 0.0
  }

  /** When no item has spent beyond its budget the remaining figure is never red, and
      when every item has, it is red unless nothing is listed. */
  lemma RemainingNegativeOnlyWhenOverspent(items: seq<DashboardItem>)
    ensures (forall k :: 0 <= k < |items| ==> ItemLeft(items[k]) >= 0.0) ==> !RemainingShownNegative(items)
    ensures (|items| > 0 && forall k :: 0 <= k < |items| ==> ItemLeft(items[k]) < 0.0) ==>
      RemainingShownNegative(items)
  {
    TotalRemainingIsSumOfItems(items);
    if forall k :: 0 <= k < |items| ==> ItemLeft(items[k]) >= 0.0 {
      SumNonNegative(items, ItemLeft);
    }
    if |items| > 0 && forall k :: 0 <= k < |items| ==> ItemLeft(items[k]) < 0.0 {
      SumNegative(items, ItemLeft);
    }
  }

  lemma {:induction false} SumNegative(s: seq<DashboardItem>, f: DashboardItem -> real)
    requires |s| > 0 && forall i :: 0 <= i < |s| ==> f(s[i]) < 0.0
    ensures Sum(s, f) < 0.0
  {
    if |s| > 1 {
      SumNegative(s[1..], f);
    }
  }

  // ---------------------------------------------------------------- sections

  function OfType(typeId: string): DashboardItem -> bool
  {
    (item: DashboardItem) => item.budget_type_id == typeId
  }

  /** A rendered type section: the type's heading and its items. */
  datatype Section = Section(budgetType: DashboardType, items: seq<DashboardItem>)

  /** The sections drawn for `types`, in order: one per type that has at least one item,
      listing the items carrying that type's id. */
  function Sections(types: seq<DashboardType>, items: seq<DashboardItem>): (r: seq<Section>)
    ensures |r| <= |types|
  {
    if |types| == 0 then []
    else
      var typeItems := Filter(items, OfType(types[0].id));
      var rest := Sections(types[1..], items);
      if |typeItems| == 0 then rest else [Section(types[0], typeItems)] + rest
  }

  /** Each section belongs to a listed type and holds exactly that type's items, never
      none. */
  lemma {:induction false} SectionsSound(types: seq<DashboardType>, items: seq<DashboardItem>)
    ensures forall s :: s in Sections(types, items) ==>
      s.budgetType in types && |s.items| > 0 && s.items == Filter(items, OfType(s.budgetType.id))
  {
    if |types| > 0 {
      SectionsSound(types[1..], items);
      forall s | s in Sections(types, items)
        ensures s.budgetType in types && |s.items| > 0 && s.items == Filter(items, OfType(s.budgetType.id))
      {
        if s !in Sections(types[1..], items) {
          assert s == Section(types[0], Filter(items, OfType(types[0].id)));
        } else {
          assert s.budgetType in types[1..];
        }
      }
    }
  }

  /** Every listed type that has items gets its section. */
  /** Whether a type has any item, and so a section. */
  function HasItems(items: seq<DashboardItem>): DashboardType -> bool
  {
    (t: DashboardType) => |Filter(items, OfType(t.id))| > 0
  }

  /** The section drawn for a type that has items. */
  function SectionOf(items: seq<DashboardItem>): DashboardType -> Section
  {
    (t: DashboardType) => Section(t, Filter(items, OfType(t.id)))
  }

  /** The sections follow the order of `types`: they are the sections of the types that
      have items, in the order of those types. */
  lemma {:induction false} SectionsFollowTypes(types: seq<DashboardType>, items: seq<DashboardItem>)
    ensures Sections(types, items) == Map(Filter(types, HasItems(items)), SectionOf(items))
  {
    if |types| > 0 {
      SectionsFollowTypes(types[1..], items);
      var shownRest := Filter(types[1..], HasItems(items));
      if HasItems(items)(types[0]) {
        assert Filter(types, HasItems(items)) == [types[0]] + shownRest;
        MapCons(types[0], shownRest, SectionOf(items));
      } else {
        assert Filter(types, HasItems(items)) == shownRest;
      }
    }
  }

  lemma {:induction false} SectionsComplete(types: seq<DashboardType>, items: seq<DashboardItem>)
    ensures forall t :: t in types && |Filter(items, OfType(t.id))| > 0 ==>
      Section(t, Filter(items, OfType(t.id))) in Sections(types, items)
  {
    if |types| > 0 {
      SectionsComplete(types[1..], items);
      forall t | t in types && |Filter(items, OfType(t.id))| > 0
        ensures Section(t, Filter(items, OfType(t.id))) in Sections(types, items)
      {
        if t != types[0] {
          assert t in types[1..];
        }
      }
    }
  }

  /** Every item whose type is listed is drawn in a section of its own type. */
  lemma ItemDrawnUnderItsType(types: seq<DashboardType>, items: seq<DashboardItem>, k: nat, t: DashboardType)
    requires k < |items| && t in types && items[k].budget_type_id == t.id
    ensures exists s :: s in Sections(types, items) && s.budgetType == t && items[k] in s.items
  {
    var typeItems := Filter(items, OfType(t.id));
    assert items[k] in typeItems;
    SectionsComplete(types, items);
    assert Section(t, typeItems) in Sections(types, items);
  }

  // ---------------------------------------------------------------- item rows

  /** The Over Budget badge is shown exactly when the item's flag is set. */
  predicate ShowsOverBudgetBadge(item: DashboardItem)
  {
    item.overBudget
  }

  /** The bar's `current` is the posted plus the approved reimbursed spend. */
  function BarCurrent(item: DashboardItem): real
  {
    item.posted_spend + item.approved_reimbursed_spend
  }

  /** The bar drawn for an item, measured against its budget amount. */
  function ItemBar(item: DashboardItem): (c: Colour)
    ensures c == Red <==> ShowsOverBudgetBadge(item)
    ensures c == Yellow ==>
      item.budget_amount > 0.0 && BarCurrent(item) * 5.0 > item.budget_amount * 4.0
  {
    ColourTracksSpending(BarCurrent(item), item.budget_amount, item.overBudget);
    BarColour(BarCurrent(item), item.budget_amount, item.overBudget)
  }
}
