/** Item statuses and the quantity rules attached to them (app/services/item_status_service.py). */
module ItemStatuses {
  import opened Stock

  /** The seven codes of the item status table: R, U, W, D, P, L, F. */
  datatype Status = Requested | Unavailable | Waiting | Denied | PartlyFilled | LimitAllowed | Filled

  datatype ReqItem = ReqItem(request: Qty, issue: Qty, status: Status)

  /** The statuses that may be chosen by hand; only codes present in the active status map are offered. */
  function AllowedStatuses(active: set<Status>, total: Qty, request: Qty, activity: bool): set<Status> {
    var offered :=
      if total == 0 then
        if !activity then {Requested, Unavailable, Denied, Waiting} else {Unavailable, Denied, Waiting}
      else if total == request then {Filled}
      else if total < request then {PartlyFilled, LimitAllowed}
      else {Filled};
    offered * active
  }

  /** A status may always stay what it is; otherwise it must be one of the allowed ones. */
  predicate TransitionValid(active: set<Status>, current: Status, next: Status, total: Qty, request: Qty, activity: bool) {
    current == next || next in AllowedStatuses(active, total, request, activity)
  }

  predicate WithinLimit(total: Qty, request: Qty) {
    total <= request
  }

  predicate IsUnavailable(s: Status) {
    s.Unavailable? || s.Denied? || s.Waiting?
  }

  predicate AllowsPartial(s: Status) {
    IsUnavailable(s) || s.LimitAllowed? || s.PartlyFilled?
  }

  function CalculatedStatus(total: Qty, request: Qty): Status {
    if total == 0 then Requested else if total >= request then Filled else PartlyFilled
  }

  /** The issue quantity written for a status; `request - 1` is one hundredth below the request. */
  function IssueFor(s: Status, total: Qty, request: Qty): Qty {
    match s
    case Requested | Unavailable | Waiting | Denied => 0
    case PartlyFilled | LimitAllowed => Min(total, request - 1)
    case Filled => request
  }

  /** The quantity rule of each status: constraint c_reliefrqst_item_2a, with non-negative quantities. */
  predicate Agrees(i: ReqItem) {
    && 0 < i.request
    && 0 <= i.issue <= i.request
    && (i.status.Requested? || IsUnavailable(i.status) ==> i.issue == 0)
    && (i.status.PartlyFilled? || i.status.LimitAllowed? ==> i.issue < i.request)
    && (i.status.Filled? ==> i.issue == i.request)
  }

  /** The quantities for which the status written also tells the truth about what was allocated. */
  predicate Truthful(s: Status, total: Qty, request: Qty) {
    match s
    case Requested | Unavailable | Waiting | Denied => total == 0
    case PartlyFilled | LimitAllowed => total < request
    case Filled => total == request
  }

  /** The issue quantity equals the allocated total exactly for truthful statuses: on whole hundredths the
      cut-off one hundredth below the request never changes a truthful partial quantity. */
  lemma IssueIsTotalIffTruthful(s: Status, total: Qty, request: Qty)
    ensures IssueFor(s, total, request) == total <==> Truthful(s, total, request)
  {
  }

  /** What may be chosen by hand, for every pair of quantities: an active status that tells the truth about the
      allocated total, or FILLED for a total above the request; a partial status and FILLED need some allocation,
      and REQUESTED needs an untouched item. */
  lemma AllowedIffTruthful(active: set<Status>, s: Status, total: Qty, request: Qty, activity: bool)
    ensures s in AllowedStatuses(active, total, request, activity)
            <==> && s in active && (Truthful(s, total, request) || (s.Filled? && total > request))
                 && (s.PartlyFilled? || s.LimitAllowed? || s.Filled? ==> total != 0)
                 && (s.Requested? ==> !activity)
  {
  }

  /** A changed status is truthful for every allocation within the limit; only an unchanged one can lie. */
  lemma ChangedStatusIsTruthful(active: set<Status>, current: Status, next: Status, total: Qty, request: Qty, activity: bool)
    requires TransitionValid(active, current, next, total, request, activity)
    requires WithinLimit(total, request)
    requires current != next
    ensures Truthful(next, total, request)
  {
  }
}
