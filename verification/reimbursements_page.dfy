/** The reimbursements page: its status filter and query, the owner-only review actions,
    and the pending total. */
module ReimbursementsPage {
  import opened Common
  import opened Seqs
  import opened Ledger
  import opened ReimbursementsRoute

  /** The filter buttons. */
  datatype StatusFilter = FilterPending | FilterApproved | FilterRejected | FilterAll

  function FilterName(f: StatusFilter): string
  {
    match f
    case FilterPending => "PENDING"
    case FilterApproved => "APPROVED"
    case FilterRejected => "REJECTED"
    case FilterAll => "ALL"
  }

  /** `isOwner`. */
  predicate IsOwner(role: Option<Role>)
    ensures IsOwner(role) <==> role.Some? && role.value != EDITOR && role.value != VIEWER
  {
    role.Some? && role.value == OWNER
  }

  // ---------------------------------------------------------------- query

  /** The query string as a list of name and value pairs, in the order appended. */
  type Params = seq<(string, string)>

  /** `params.get(name)`: the first value under `name`. */
  function ParamValue(params: Params, name: string): (v: Option<string>)
    ensures v.Some? <==> exists k :: 0 <= k < |params| && params[k].0 == name
    ensures v.Some? ==> (name, v.value) in params
  {
    if |params| == 0 then None
    else if params[0].0 == name then Some(params[0].1)
    else
      var rest := ParamValue(params[1..], name);
      assert forall k :: 1 <= k < |params| ==> params[k] == params[1..][k - 1];
      rest
  }

  /** The query `loadReimbursements` builds: the status unless the filter is ALL, then
      the month when one is selected. */
  function QueryParams(filter: StatusFilter, selectedMonthId: Option<string>): (params: Params)
    ensures ParamValue(params, "status") == if filter == FilterAll then None else Some(FilterName(filter))
    ensures ParamValue(params, "monthId") == if Truthy(selectedMonthId) then selectedMonthId else None
    ensures forall k :: 0 <= k < |params| ==> params[k].0 == "status" || params[k].0 == "monthId"
  {
    (if filter != FilterAll then [("status", FilterName(filter))] else [])
    + (if Truthy(selectedMonthId) then [("monthId", selectedMonthId.value)] else [])
  }

  // ---------------------------------------------------------------- row actions

  /** What the actions cell of a row shows. */
  datatype RowAction = ApproveReject | OwnerOnly | NoAction

  function RowActionFor(status: ReimburseStatus, isOwner: bool): (a: RowAction)
    ensures a == ApproveReject <==> status == PENDING && isOwner
    ensures a == OwnerOnly <==> status == PENDING && !isOwner
    ensures a == NoAction <==> status != PENDING
  {
    if status == PENDING then (if isOwner then ApproveReject else OwnerOnly) else NoAction
  }

  // ---------------------------------------------------------------- pending total

  /** A line's reimbursement amount as the sum adds it: a null amount adds nothing. */
  function ReimbursementOf(line: ReimbursementLine): real
  {
    if line.reimbursement_amount.Some? then line.reimbursement_amount.value else 0.0
  }

  /** The pending summary: shown only under the PENDING filter with a non-empty list,
      with the reimbursement amounts of the listed lines added up. */
  function PendingSummary(filter: StatusFilter, items: seq<ReimbursementLine>): (total: Option<real>)
    ensures total.Some? <==> filter == FilterPending && |items| > 0
  {
    if filter == FilterPending && |items| > 0 then Some(Sum(items, ReimbursementOf)) else None
  }

  /** The pending total is never negative when no line carries a negative amount. */
  lemma PendingTotalNonNegative(filter: StatusFilter, items: seq<ReimbursementLine>)
    requires forall k :: 0 <= k < |items| ==>
      items[k].reimbursement_amount.Some? ==> items[k].reimbursement_amount.value >= 0.0
    ensures PendingSummary(filter, items).Some? ==> PendingSummary(filter, items).value >= 0.0
  {
    SumNonNegative(items, ReimbursementOf);
  }

  /** Under the PENDING filter, the total of a one-line list is that line's reimbursement
      amount, a null amount counting as 0. */
  lemma PendingTotalOfOneLine(line: ReimbursementLine)
    ensures PendingSummary(FilterPending, [line]) == Some(ReimbursementOf(line))
  {
    assert Sum([line], ReimbursementOf) == ReimbursementOf(line) + Sum([line][1..], ReimbursementOf);
    assert [line][1..] == [];
  }

  /** Adding a line to the list adds its reimbursement amount to the pending total. */
  lemma PendingTotalGrows(items: seq<ReimbursementLine>, line: ReimbursementLine)
    requires |items| > 0
    ensures PendingSummary(FilterPending, items + [line]).value
      == PendingSummary(FilterPending, items).value + ReimbursementOf(line)
  {
    SumAppend(items, [line], ReimbursementOf);
  }

  // ---------------------------------------------------------------- page state

  /** A review request sent to the database functions that approve or reject a line. */
  datatype ReviewRequest = Approve(itemId: string) | Reject(itemId: string)

  const APPROVE_DENIED: string := "Only workspace owners can approve reimbursements"
  const REJECT_DENIED: string := "Only workspace owners can reject reimbursements"

  /** The page's state, with the review requests sent and the alerts shown so far. */
  class ReimbursementsView {
    var workspaceRole: Option<Role>
    var selectedMonthId: Option<string>
    var items: seq<ReimbursementLine>
    var statusFilter: StatusFilter
    var requests: seq<ReviewRequest>
    var alerts: seq<string>

    /** The page starts with the PENDING filter, no month and no lines. */
    constructor (role: Option<Role>)
      ensures workspaceRole == role && statusFilter == FilterPending
      ensures selectedMonthId.None? && items == [] && requests == [] && alerts == []
    {
      workspaceRole := role;
      selectedMonthId := None;
      items := [];
      statusFilter := FilterPending;
      requests := [];
      alerts := [];
    }

    /** The two workspace effects: without a workspace the lines are cleared; a set
        workspace also clears the month and puts the filter back to PENDING. */
    method WorkspaceChanged(workspaceId: Option<string>)
      modifies this
      ensures items == []
      ensures !Truthy(workspaceId) ==>
        selectedMonthId == old(selectedMonthId) && statusFilter == old(statusFilter)
      ensures Truthy(workspaceId) ==> selectedMonthId == Some("") && statusFilter == FilterPending
      ensures workspaceRole == old(workspaceRole) && requests == old(requests) && alerts == old(alerts)
    {
      items := [];
      if Truthy(workspaceId) {
        selectedMonthId := Some("");
        statusFilter := FilterPending;
      }
    }

    /** `handleApprove`: an owner sends the approval; anyone else is told and nothing is
        sent. */
    method HandleApprove(itemId: string)
      modifies this
      ensures IsOwner(workspaceRole) ==>
        requests == old(requests) + [Approve(itemId)] && alerts == old(alerts)
      ensures !IsOwner(workspaceRole) ==>
        requests == old(requests) && alerts == old(alerts) + [APPROVE_DENIED]
      ensures workspaceRole == old(workspaceRole) && selectedMonthId == old(selectedMonthId)
      ensures items == old(items) && statusFilter == old(statusFilter)
    {
      if !IsOwner(workspaceRole) {
        alerts := alerts + [APPROVE_DENIED];
        return;
      }
      requests := requests + [Approve(itemId)];
    }

    /** `handleReject`: as `handleApprove`, sending a rejection. */
    method HandleReject(itemId: string)
      modifies this
      ensures IsOwner(workspaceRole) ==>
        requests == old(requests) + [Reject(itemId)] && alerts == old(alerts)
      ensures !IsOwner(workspaceRole) ==>
        requests == old(requests) && alerts == old(alerts) + [REJECT_DENIED]
      ensures workspaceRole == old(workspaceRole) && selectedMonthId == old(selectedMonthId)
      ensures items == old(items) && statusFilter == old(statusFilter)
    {
      if !IsOwner(workspaceRole) {
        alerts := alerts + [REJECT_DENIED];
        return;
      }
      requests := requests + [Reject(itemId)];
    }
  }

  /** A non-owner never sends a review request, whatever they click. */
  method NonOwnerSendsNothing(v: ReimbursementsView, approve: bool, itemId: string)
    requires !IsOwner(v.workspaceRole)
    modifies v
    ensures v.requests == old(v.requests)
  {
    if approve {
      v.HandleApprove(itemId);
    } else {
      v.HandleReject(itemId);
    }
  }
}
