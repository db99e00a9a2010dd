/** The whole system as a state machine: relief requests, packages, donations and stock. Every handler is one
    transaction, a function from a state to the state it commits, or to `None` when it is rolled back. */
module Workflow {
  import opened Stock
  import opened ItemStatuses
  import opened Packaging
  import opened Intake

  // Request status codes of the lookup table.
  const DRAFT := 0
  const AWAITING_APPROVAL := 1
  const SUBMITTED := 3
  const PART_FILLED := 5
  const INELIGIBLE := 8

  datatype Request = Request(status: int, reviewer: Option<string>, reason: Option<string>,
                             items: map<int, ReqItem>, version: int)

  /** A relief package; one per request, so it is filed under the request's number. */
  datatype Package = Package(dispatched: bool, submitted: bool, creator: string, version: int, lines: Lines)

  datatype State = State(stock: Stock, nextBatch: int, requests: map<int, Request>, nextRequest: int,
                         packages: map<int, Package>, donations: map<int, Donation>, intakes: set<(int, int)>,
                         catalog: Catalog, statuses: set<Status>)

  /** The empty tables of a new installation. */
  function Empty(catalog: Catalog, statuses: set<Status>): State {
    State(Stock(map[], map[]), 1, map[], 1, map[], map[], {}, catalog, statuses)
  }

  /** The version numbers a form posts back. */
  datatype Posted = Posted(request: Option<int>, package: Option<int>)

  function OldLines(s: State, r: int): Lines {
    if r in s.packages then s.packages[r].lines else map[]
  }

  /** The existing package, or the one `_process_allocations` creates. */
  function PackageOf(s: State, r: int, user: string): Package {
    if r in s.packages then s.packages[r] else Package(false, false, user, 1, map[])
  }

  ghost function Prepared(s: State, r: int, today: int, form: Form, complete: bool): Option<Draft>
    requires r in s.requests
  {
    Process(s.stock.batches, today, s.statuses, OldLines(s, r), s.requests[r].items, form, complete)
  }

  /** The status check of the preparation page; the package's own status is not looked at. */
  predicate Packable(s: State, r: int) {
    r in s.requests && (s.requests[r].status == SUBMITTED || s.requests[r].status == PART_FILLED)
  }

  /** Version checks of the preparation handlers: the package version only when it was posted. */
  predicate PrepareVersions(s: State, r: int, posted: Posted)
    requires r in s.requests
  {
    && posted.request == Some(s.requests[r].version)
    && (r in s.packages && posted.package.Some? ==> posted.package.value == s.packages[r].version)
  }

  /** Version checks of the approval handlers: both versions, always. */
  predicate ApproveVersions(s: State, r: int, posted: Posted)
    requires r in s.requests && r in s.packages
  {
    posted.request == Some(s.requests[r].version) && posted.package == Some(s.packages[r].version)
  }

  predicate HasPending(s: State, r: int) {
    r in s.requests && r in s.packages && !s.packages[r].dispatched
  }

  function Filed(s: State, st: Stock, r: int, rq: Request, p: Package): State {
    s.(stock := st, requests := s.requests[r := rq], packages := s.packages[r := p])
  }

  // ---------------------------------------------------------------- package handlers

  /** Saving: reserve the processed lines in place of the old ones, then file both records. */
  ghost function FileDraft(s: State, r: int, user: string, d: Draft): Option<State>
    requires r in s.requests
  {
    match Reserve(s.stock, OldLines(s, r), Positive(d.lines))
    case None => None
    case Some(st) =>
      var rq := s.requests[r];
      Some(Filed(s, st, r, rq.(items := d.items, status := PART_FILLED, version := rq.version + 1),
                 PackageOf(s, r, user).(lines := d.lines, submitted := false)))
  }

  ghost function SaveDraft(s: State, r: int, user: string, posted: Posted, today: int, form: Form): Option<State> {
    if !Packable(s, r) || !PrepareVersions(s, r, posted) then None else
    match Prepared(s, r, today, form, false)
    case None => None
    case Some(d) => FileDraft(s, r, user, d)
  }

  ghost function FileSubmission(s: State, r: int, user: string, d: Draft): Option<State>
    requires r in s.requests
  {
    match Reserve(s.stock, OldLines(s, r), Positive(d.lines))
    case None => None
    case Some(st) =>
      var rq := s.requests[r];
      var p := PackageOf(s, r, user);
      Some(Filed(s, st, r, rq.(items := d.items, status := PART_FILLED, version := rq.version + 1),
                 p.(lines := d.lines, submitted := true, version := p.version + 1)))
  }

  /** Submitting also sets the package back to pending, which the dispatch date constraint refuses for a
      dispatched package, and refuses a second officer on a pending package. */
  ghost function SubmitForApproval(s: State, r: int, user: string, posted: Posted, today: int, form: Form): Option<State> {
    if !Packable(s, r) || !PrepareVersions(s, r, posted) then None else
    if r in s.packages && (s.packages[r].dispatched || s.packages[r].creator != user) then None else
    match Prepared(s, r, today, form, false)
    case None => None
    case Some(d) => FileSubmission(s, r, user, d)
  }

  ghost function FileApprovalDraft(s: State, r: int, d: Draft): Option<State>
    requires HasPending(s, r)
  {
    match Reserve(s.stock, OldLines(s, r), Positive(d.lines))
    case None => None
    case Some(st) =>
      var p := s.packages[r];
      Some(Filed(s, st, r, s.requests[r].(items := d.items), p.(lines := d.lines, version := p.version + 1)))
  }

  ghost function SaveDraftApproval(s: State, r: int, posted: Posted, today: int, form: Form): Option<State> {
    if !HasPending(s, r) || !ApproveVersions(s, r, posted) then None else
    match Prepared(s, r, today, form, false)
    case None => None
    case Some(d) => FileApprovalDraft(s, r, d)
  }

  /** The issue quantities an approval writes: per item, what the form allocates. */
  ghost function Issued(items: map<int, ReqItem>, lines: Lines): map<int, ReqItem> {
    map i | i in items :: items[i].(issue := LineTotal(Positive(lines), i))
  }

  /** Approving passes the gate and commits the new lines without reserving them. */
  ghost function FileApproval(s: State, r: int, d: Draft): Option<State>
    requires HasPending(s, r)
  {
    if !Gate(d.items, d.lines, AnyPositive(d.lines)) then None else
    match Commit(s.stock, d.lines)
    case None => None
    case Some(st) =>
      var rq := s.requests[r];
      var p := s.packages[r];
      Some(Filed(s, st, r,
                 rq.(items := Issued(d.items, d.lines), status := PART_FILLED, version := rq.version + 1),
                 p.(lines := d.lines, dispatched := true, version := p.version + 1)))
  }

  ghost function ApproveAndDispatch(s: State, r: int, posted: Posted, today: int, form: Form): Option<State> {
    if !HasPending(s, r) || !ApproveVersions(s, r, posted) then None else
    match Prepared(s, r, today, form, false)
    case None => None
    case Some(d) => FileApproval(s, r, d)
  }

  /** Sending directly skips both the reservation and the gate. */
  ghost function FileDispatch(s: State, r: int, user: string, d: Draft): Option<State>
    requires r in s.requests
  {
    match Commit(s.stock, d.lines)
    case None => None
    case Some(st) =>
      var rq := s.requests[r];
      Some(Filed(s, st, r, rq.(items := d.items, status := PART_FILLED, version := rq.version + 1),
                 PackageOf(s, r, user).(lines := d.lines, dispatched := true)))
  }

  ghost function SendForDispatch(s: State, r: int, user: string, posted: Posted, today: int, form: Form): Option<State> {
    if !Packable(s, r) || !PrepareVersions(s, r, posted) then None else
    match Prepared(s, r, today, form, true)
    case None => None
    case Some(d) => FileDispatch(s, r, user, d)
  }

  predicate AnyIssued(items: map<int, ReqItem>) {
    exists i :: i in items && items[i].issue > 0
  }

  /** Reviewing dispatches the package as it was last saved. */
  ghost function ReviewApproval(s: State, r: int): Option<State> {
    if !HasPending(s, r) then None else
    var rq := s.requests[r];
    var p := s.packages[r];
    if !Gate(rq.items, p.lines, AnyIssued(rq.items)) then None else
    match Commit(s.stock, p.lines)
    case None => None
    case Some(st) =>
      Some(Filed(s, st, r, rq.(status := PART_FILLED, version := rq.version + 1), p.(dispatched := true)))
  }

  /** Cancelling deletes the lines first, so the release that follows finds nothing to give back. */
  ghost function CancelPreparation(s: State, r: int): Option<State> {
    if r !in s.packages then Some(s.(stock := Release(s.stock, map[]))) else
    Some(s.(stock := Release(s.stock, map[]), packages := s.packages[r := s.packages[r].(lines := map[])]))
  }

  /** The order the handler's description asks for: release on intact lines, then discard them. */
  ghost function ReleaseAndDiscard(s: State, r: int): Option<State> {
    if r !in s.packages then None else
    Some(s.(stock := Release(s.stock, s.packages[r].lines), packages := s.packages[r := s.packages[r].(lines := map[])]))
  }

  // ---------------------------------------------------------------- donations

  /** A new donation is entered as verified. */
  function Donate(s: State, d: int, items: seq<DonatedItem>): Option<State> {
    if d in s.donations || !DistinctItems(items) then None
    else Some(s.(donations := s.donations[d := Donation(Verified, items)]))
  }

  ghost function TakeIn(s: State, d: int, warehouse: int, today: int, sheet: Sheet): Option<State> {
    if d !in s.donations || !s.donations[d].status.Verified? || (d, warehouse) in s.intakes
       || !SheetPasses(s.stock.batches, s.catalog, today, sheet, s.donations[d].items) then None
    else
      var don := s.donations[d];
      var y := ReceiveAll(Yard(s.stock, s.nextBatch), warehouse, Arrivals(s.catalog, sheet, don.items));
      Some(s.(stock := y.stock, nextBatch := y.next, intakes := s.intakes + {(d, warehouse)},
              donations := s.donations[d := don.(status := Processed)]))
  }

  // ---------------------------------------------------------------- request lifecycle

  /** `user` is the user name found for the creator's address, if any. */
  function CreateDraft(s: State, user: Option<string>): Option<State> {
    if user.None? then None else
    Some(s.(requests := s.requests[s.nextRequest := Request(DRAFT, None, None, map[], 1)],
            nextRequest := s.nextRequest + 1))
  }

  predicate IsDraft(s: State, r: int) {
    r in s.requests && s.requests[r].status == DRAFT
  }

  /** The fields posted beside a requested quantity. */
  datatype Need = Need(urgency: char, reason: string, requiredBy: Option<int>)

  /** The page's check on urgent items, and the table's checks on urgency, reason and date. */
  predicate NeedPasses(n: Need) {
    && n.urgency in {'L', 'M', 'H', 'C'}
    && (n.urgency == 'H' || n.urgency == 'C' ==> n.requiredBy.Some?)
    && (n.urgency == 'H' ==> Strip(n.reason) != "")
  }

  predicate IsActive(catalog: Catalog, item: int) {
    item in catalog && catalog[item].active
  }

  function EditItem(s: State, r: int, item: int, qty: Qty, need: Need): Option<State> {
    if !IsDraft(s, r) || !IsActive(s.catalog, item) || qty <= 0 || !NeedPasses(need) then None else
    var items := s.requests[r].items;
    var ri := if item in items then items[item].(request := qty) else ReqItem(qty, 0, Requested);
    Some(s.(requests := s.requests[r := s.requests[r].(items := items[item := ri])]))
  }

  function DeleteItem(s: State, r: int, item: int): Option<State> {
    if !IsDraft(s, r) || item !in s.requests[r].items then None else
    Some(s.(requests := s.requests[r := s.requests[r].(items := s.requests[r].items - {item})]))
  }

  function CancelRequest(s: State, r: int): Option<State> {
    if !IsDraft(s, r) then None else Some(s.(requests := s.requests - {r}))
  }

  function SubmitRequest(s: State, r: int, version: int): Option<State> {
    if !IsDraft(s, r) then None else
    var rq := s.requests[r];
    if !(exists i :: i in rq.items && rq.items[i].request > 0) || rq.version != version then None else
    Some(s.(requests := s.requests[r := rq.(status := AWAITING_APPROVAL, version := rq.version + 1)]))
  }

  predicate IsSpace(c: char) {
    c == ' ' || c == '\t' || c == '\n' || c == '\r'
  }

  function StripLeft(t: string): string {
    if t != "" && IsSpace(t[0]) then StripLeft(t[1..]) else t
  }

  function StripRight(t: string): string {
    if t != "" && IsSpace(t[|t| - 1]) then StripRight(t[..|t| - 1]) else t
  }

  function Strip(t: string): string {
    StripRight(StripLeft(t))
  }

  function StrippedReason(reason: Option<string>): string {
    if reason.Some? then Strip(reason.value) else ""
  }

  function Decide(s: State, r: int, decision: char, reason: Option<string>, reviewer: Option<string>): Option<State> {
    if r !in s.requests || s.requests[r].status != AWAITING_APPROVAL || s.requests[r].reviewer.Some? then None else
    if decision != 'Y' && decision != 'N' then None else
    if decision == 'N' && StrippedReason(reason) == "" then None else
    if reviewer.None? then None else
    var rq := s.requests[r].(reviewer := reviewer, version := s.requests[r].version + 1);
    Some(s.(requests := s.requests[r :=
      if decision == 'N' then rq.(status := INELIGIBLE, reason := Some(StrippedReason(reason)))
      else rq.(status := SUBMITTED)]))
  }

  // ---------------------------------------------------------------- the item page

  /** Editing an item writes both flags; no batch of the item is looked at. */
  function EditCatalog(s: State, item: int, version: int, canExpire: bool, active: bool): Option<State> {
    if item !in s.catalog || s.catalog[item].version != version then None else
    Some(s.(catalog := s.catalog[item := CatalogItem(canExpire, active, version + 1)]))
  }

  // ---------------------------------------------------------------- runs

  datatype Action =
    | ASaveDraft(r: int, user: string, posted: Posted, today: int, form: Form)
    | ASubmit(r: int, user: string, posted: Posted, today: int, form: Form)
    | ASaveApproval(r: int, posted: Posted, today: int, form: Form)
    | AApprove(r: int, posted: Posted, today: int, form: Form)
    | ASend(r: int, user: string, posted: Posted, today: int, form: Form)
    | AReview(r: int)
    | ACancel(r: int)
    | ARelease(r: int)
    | ADonate(d: int, items: seq<DonatedItem>)
    | ATakeIn(d: int, warehouse: int, today: int, sheet: Sheet)
    | ACreate(creator: Option<string>)
    | AEditItem(r: int, item: int, qty: Qty, need: Need)
    | ADeleteItem(r: int, item: int)
    | ACancelRequest(r: int)
    | ASubmitRequest(r: int, version: int)
    | ADecide(r: int, decision: char, reason: Option<string>, reviewer: Option<string>)
    | AEditCatalog(item: int, version: int, canExpire: bool, active: bool)

  /** The steps on a package. */
  predicate IsPackageStep(a: Action) {
    a.ASaveDraft? || a.ASubmit? || a.ASaveApproval? || a.AApprove? || a.ASend? || a.AReview? || a.ACancel? || a.ARelease?
  }

  /** The steps that touch neither stock nor packages. */
  predicate IsDeskwork(a: Action) {
    !IsPackageStep(a) && !a.ATakeIn?
  }

  /** The state a handler commits, or `None` when it refuses and rolls back. */
  ghost function Attempt(s: State, a: Action): Option<State> {
    match a
    case ASaveDraft(r, user, posted, today, form) => SaveDraft(s, r, user, posted, today, form)
    case ASubmit(r, user, posted, today, form) => SubmitForApproval(s, r, user, posted, today, form)
    case ASaveApproval(r, posted, today, form) => SaveDraftApproval(s, r, posted, today, form)
    case AApprove(r, posted, today, form) => ApproveAndDispatch(s, r, posted, today, form)
    case ASend(r, user, posted, today, form) => SendForDispatch(s, r, user, posted, today, form)
    case AReview(r) => ReviewApproval(s, r)
    case ACancel(r) => CancelPreparation(s, r)
    case ARelease(r) => ReleaseAndDiscard(s, r)
    case ADonate(d, items) => Donate(s, d, items)
    case ATakeIn(d, warehouse, today, sheet) => TakeIn(s, d, warehouse, today, sheet)
    case ACreate(creator) => CreateDraft(s, creator)
    case AEditItem(r, item, qty, need) => EditItem(s, r, item, qty, need)
    case ADeleteItem(r, item) => DeleteItem(s, r, item)
    case ACancelRequest(r) => CancelRequest(s, r)
    case ASubmitRequest(r, version) => SubmitRequest(s, r, version)
    case ADecide(r, decision, reason, reviewer) => Decide(s, r, decision, reason, reviewer)
    case AEditCatalog(item, version, canExpire, active) => EditCatalog(s, item, version, canExpire, active)
  }

  ghost predicate Commits(s: State, a: Action) {
    Attempt(s, a).Some?
  }

  /** One transaction: its effect, or none at all. */
  ghost function Exec(s: State, a: Action): State {
    match Attempt(s, a)
    case Some(t) => t
    case None => s
  }

  ghost function Run(s: State, actions: seq<Action>): State
    decreases |actions|
  {
    if actions == [] then s else Exec(Run(s, actions[..|actions| - 1]), actions[|actions| - 1])
  }

  lemma RunOne(s: State, a: Action)
    ensures Run(s, [a]) == Exec(s, a)
  {
    hide Exec;
    assert [a][..0] == [];
  }

  lemma RunPlus(s: State, one: seq<Action>, two: seq<Action>)
    ensures Run(s, one + two) == Run(Run(s, one), two)
  {
    RunSplit(s, one + two, |one|);
    assert (one + two)[..|one|] == one && (one + two)[|one|..] == two;
  }

  /** Runs compose. */
  lemma {:induction false} RunSplit(s: State, actions: seq<Action>, i: nat)
    requires i <= |actions|
    ensures Run(s, actions) == Run(Run(s, actions[..i]), actions[i..])
    decreases |actions|
  {
    hide Exec;
    if i == |actions| {
      assert actions[..i] == actions && actions[i..] == [];
    } else {
      var n := |actions| - 1;
      RunSplit(s, actions[..n], i);
      assert actions[..n][..i] == actions[..i];
      assert actions[..n][i..] == actions[i..][..n - i];
      assert actions[i..][n - i] == actions[n];
    }
  }

  /** A run one step longer. */
  lemma RunSnoc(s: State, actions: seq<Action>, i: nat)
    requires i < |actions|
    ensures Run(s, actions[..i + 1]) == Exec(Run(s, actions[..i]), actions[i])
  {
    hide Exec;
    assert actions[..i + 1][..i] == actions[..i];
  }
}
