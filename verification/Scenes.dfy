/** Scripts: short runs of a new installation, and the states they lead to. One batch of 100.00 units arrives, and
    requests for it are admitted, prepared and dispatched. */
module Scenes {
  import opened Sums
  import opened Stock
  import opened ItemStatuses
  import opened Packaging
  import opened Intake
  import opened Workflow
  import opened Safety
  import opened Reservations
  import opened Ledger

  const BATCH := 1
  const KEY := LineKey(1, 1, BATCH)

  /** The delivered batch; it expires on day 5 if its item can expire. */
  function Boxed(dated: bool, usable: Qty, reserved: Qty): Batch {
    Batch(1, 1, None, None, if dated then Some(5) else None, "EA", true, usable, reserved, 0, 0)
  }

  function AllStatuses(): set<Status> {
    {Requested, Unavailable, Waiting, Denied, PartlyFilled, LimitAllowed, Filled}
  }

  function Start(dated: bool): State {
    Empty(map[1 := CatalogItem(dated, true, 1)], AllStatuses())
  }

  /** A good and exact state with the one batch. */
  ghost predicate Scene(s: State, dated: bool, usable: Qty, reserved: Qty) {
    && Good(s) && Exact(s)
    && s.stock.batches == map[BATCH := Boxed(dated, usable, reserved)]
    && s.catalog == map[1 := CatalogItem(dated, true, 1)]
    && s.statuses == AllStatuses()
  }

  lemma SumOne<K>(k: K, v: int)
    ensures Sum(map[k := v]) == v
  {
    SumRemove(map[k := v], k);
    assert map[k := v] - {k} == map[];
  }

  lemma RunThen(s: State, actions: seq<Action>, a: Action)
    ensures Run(s, actions + [a]) == Exec(Run(s, actions), a)
  {
    hide Exec;
    RunPlus(s, actions, [a]);
    RunOne(Run(s, actions), a);
  }

  /** Exactness depends on batches and packages alone. */
  lemma ExactAlike(s: State, t: State)
    requires Exact(s) && t.stock.batches == s.stock.batches && t.packages == s.packages
    ensures Exact(t)
  {
    forall id | id in t.stock.batches ensures BatchExact(t, id) {
      assert BatchExact(s, id);
    }
  }

  // ---------------------------------------------------------------- the delivery

  function Gift(): seq<DonatedItem> {
    [DonatedItem(1, 10000)]
  }

  function GiftSheet(): Sheet {
    Sheet(Given(1), "", map[1 := Entry(None, Blank, Given(5), Some("EA"), Given(100), Given(10000), Blank, Blank)])
  }

  function Delivery(): seq<Action> {
    [ADonate(1, Gift())] + [ATakeIn(1, 1, 1, GiftSheet())]
  }

  lemma GiftArrives(s: State, dated: bool)
    requires s == Start(dated).(donations := map[1 := Donation(Verified, Gift())])
    ensures Commits(s, ATakeIn(1, 1, 1, GiftSheet()))
    ensures var t := Exec(s, ATakeIn(1, 1, 1, GiftSheet()));
            && t.stock.batches == map[BATCH := Boxed(dated, 10000, 0)]
            && t == s.(stock := t.stock, nextBatch := t.nextBatch, intakes := t.intakes, donations := t.donations)
  {
    assert SheetPasses(s.stock.batches, s.catalog, 1, GiftSheet(), Gift());
    var arrivals := Arrivals(s.catalog, GiftSheet(), Gift());
    var y := Yard(s.stock, s.nextBatch);
    assert arrivals[..0] == [];
    assert forall id :: !Unnumbered(y.stock.batches, 1, 1, id);
    assert ReceiveAll(y, 1, arrivals) == ReceiveOne(y, 1, arrivals[0]) == Added(y, 1, arrivals[0]);
    assert NewBatch(1, arrivals[0]) == Boxed(dated, 10000, 0);
  }

  lemma Delivered(dated: bool)
    ensures var s := Run(Start(dated), Delivery());
            Scene(s, dated, 10000, 0) && s.requests == map[] && s.packages == map[] && s.nextRequest == 1
  {
    var e := Start(dated);
    var d := e.(donations := map[1 := Donation(Verified, Gift())]);
    assert Exec(e, ADonate(1, Gift())) == d;
    EmptyIsGood(e.catalog, e.statuses);
    RunKeepsGood(e, Delivery());
    RunOne(e, ADonate(1, Gift()));
    RunThen(e, [ADonate(1, Gift())], ATakeIn(1, 1, 1, GiftSheet()));
    GiftArrives(d, dated);
    hide Exec, Good;
    var s := Run(e, Delivery());
    assert Claims(s.packages, KEY) == map[];
    assert BatchExact(s, BATCH);
  }

  // ---------------------------------------------------------------- admitting a request

  function Plain(): Need {
    Need('M', "", None)
  }

  function Admission(r: int, qty: Qty): seq<Action> {
    [ACreate(Some("AGENCY"))] + [AEditItem(r, 1, qty, Plain())] + [ASubmitRequest(r, 1)]
    + [ADecide(r, 'Y', None, Some("DIRECTOR"))]
  }

  function Asked(status: int, reviewer: Option<string>, qty: Qty, issue: Qty, item: Status, version: int): Request {
    Request(status, reviewer, None, map[1 := ReqItem(qty, issue, item)], version)
  }

  function Admitted(qty: Qty): Request {
    Asked(SUBMITTED, Some("DIRECTOR"), qty, 0, Requested, 3)
  }

  /** A request for the item is entered, submitted and found eligible. */
  lemma AdmissionRun(s: State, r: int, qty: Qty)
    requires IsActive(s.catalog, 1) && r == s.nextRequest && 0 < qty
    ensures Run(s, Admission(r, qty)) == s.(requests := s.requests[r := Admitted(qty)], nextRequest := r + 1)
  {
    hide Run, Exec;
    var one, two := [ACreate(Some("AGENCY"))], [AEditItem(r, 1, qty, Plain())];
    var three, four := [ASubmitRequest(r, 1)], [ADecide(r, 'Y', None, Some("DIRECTOR"))];
    var s1 := s.(requests := s.requests[r := Request(DRAFT, None, None, map[], 1)], nextRequest := r + 1);
    var s2 := s1.(requests := s.requests[r := Asked(DRAFT, None, qty, 0, Requested, 1)]);
    var s3 := s1.(requests := s.requests[r := Asked(AWAITING_APPROVAL, None, qty, 0, Requested, 2)]);
    var s4 := s1.(requests := s.requests[r := Admitted(qty)]);
    RunOne(s, one[0]);
    RunThen(s, one, two[0]);
    RunThen(s, one + two, three[0]);
    RunThen(s, one + two + three, four[0]);
    CreateStep(s, s1, r);
    DraftStep(s1, s2, r, qty);
    SubmitStep(s2, s3, r, qty);
    DecideStep(s3, s4, r, qty);
  }

  lemma CreateStep(s: State, t: State, r: int)
    requires r == s.nextRequest
    requires t == s.(requests := s.requests[r := Request(DRAFT, None, None, map[], 1)], nextRequest := r + 1)
    ensures Exec(s, ACreate(Some("AGENCY"))) == t
  {
  }

  lemma DraftStep(s: State, t: State, r: int, qty: Qty)
    requires IsActive(s.catalog, 1) && 0 < qty && r in s.requests
    requires s.requests[r] == Request(DRAFT, None, None, map[], 1)
    requires t == s.(requests := s.requests[r := Asked(DRAFT, None, qty, 0, Requested, 1)])
    ensures Exec(s, AEditItem(r, 1, qty, Plain())) == t
  {
  }

  lemma SubmitStep(s: State, t: State, r: int, qty: Qty)
    requires 0 < qty && r in s.requests
    requires s.requests[r] == Asked(DRAFT, None, qty, 0, Requested, 1)
    requires t == s.(requests := s.requests[r := Asked(AWAITING_APPROVAL, None, qty, 0, Requested, 2)])
    ensures Exec(s, ASubmitRequest(r, 1)) == t
  {
    assert 1 in s.requests[r].items && s.requests[r].items[1].request > 0;
  }

  lemma DecideStep(s: State, t: State, r: int, qty: Qty)
    requires r in s.requests && s.requests[r] == Asked(AWAITING_APPROVAL, None, qty, 0, Requested, 2)
    requires t == s.(requests := s.requests[r := Admitted(qty)])
    ensures Exec(s, ADecide(r, 'Y', None, Some("DIRECTOR"))) == t
  {
  }

  lemma Admits(s: State, dated: bool, usable: Qty, reserved: Qty, r: int, qty: Qty)
    requires Scene(s, dated, usable, reserved) && r == s.nextRequest && 0 < qty
    ensures var t := Run(s, Admission(r, qty));
            && Scene(t, dated, usable, reserved)
            && t.requests == s.requests[r := Admitted(qty)] && t.packages == s.packages && t.nextRequest == r + 1
  {
    hide Good, Exact;
    AdmissionRun(s, r, qty);
    RunKeepsGood(s, Admission(r, qty));
    ExactAlike(s, Run(s, Admission(r, qty)));
  }

  // ---------------------------------------------------------------- forms with one pick

  function OnePick(qty: Qty): map<Pick, Qty> {
    map[Pick(1, BATCH) := qty]
  }

  lemma OnePickTotal(qty: Qty, statuses: map<int, Status>)
    ensures PickedTotal(Form(OnePick(qty), statuses), 1) == qty
  {
    assert PicksOf(OnePick(qty), 1) == OnePick(qty);
    SumOne(Pick(1, BATCH), qty);
  }

  lemma OneLine(b: Batch, qty: Qty, statuses: map<int, Status>)
    requires b.warehouse == 1
    ensures LinesAfter(map[BATCH := b], {1}, Form(OnePick(qty), statuses)) == map[KEY := qty]
  {
    var lines := LinesAfter(map[BATCH := b], {1}, Form(OnePick(qty), statuses));
    assert KEY in lines by {
      assert Pick(1, BATCH) in OnePick(qty) && LineFor(map[BATCH := b], Pick(1, BATCH)) == KEY;
    }
  }

  lemma OneLineTotal(qty: Qty)
    ensures LineTotal(map[KEY := qty], 1) == qty
  {
    assert LinesOf(map[KEY := qty], 1) == map[KEY := qty];
    SumOne(KEY, qty);
  }

  lemma OneItemAfter(ri: ReqItem, qty: Qty, statuses: map<int, Status>)
    ensures ItemsAfter(map[1 := ri], Form(OnePick(qty), statuses))
            == map[1 := ItemAfter(Form(OnePick(qty), statuses), 1, ri, qty)]
  {
    OnePickTotal(qty, statuses);
  }

  lemma OnePickPasses(dated: bool, usable: Qty, reserved: Qty, day: int, o: Lines, ri: ReqItem, qty: Qty,
                      statuses: map<int, Status>, complete: bool)
    requires 0 < qty <= usable - reserved + QtyOf(o, KEY) && (dated ==> day <= 5)
    requires ItemPasses(AllStatuses(), o, Form(OnePick(qty), statuses), complete, 1, ri, qty)
    ensures FormPasses(map[BATCH := Boxed(dated, usable, reserved)], day, AllStatuses(), o, map[1 := ri],
                       Form(OnePick(qty), statuses), complete)
  {
    var batches := map[BATCH := Boxed(dated, usable, reserved)];
    OnePickTotal(qty, statuses);
    assert PickPasses(batches, day, o, Pick(1, BATCH), qty);
    hide ItemPasses, PickedTotal, PickPasses;
  }

  /** A form with one pick of the batch is processed as expected. */
  lemma OnePickPrepared(s: State, dated: bool, usable: Qty, reserved: Qty, r: int, ri: ReqItem, day: int, qty: Qty,
                        statuses: map<int, Status>, complete: bool)
    requires Scene(s, dated, usable, reserved) && r in s.requests && s.requests[r].items == map[1 := ri]
    requires 0 < qty <= usable - reserved + QtyOf(OldLines(s, r), KEY) && (dated ==> day <= 5)
    requires ItemPasses(AllStatuses(), OldLines(s, r), Form(OnePick(qty), statuses), complete, 1, ri, qty)
    ensures Prepared(s, r, day, Form(OnePick(qty), statuses), complete)
            == Some(Draft(map[1 := ItemAfter(Form(OnePick(qty), statuses), 1, ri, qty)], map[KEY := qty]))
  {
    hide Good, Exact, FormPasses, LinesAfter, ItemsAfter, ItemPasses, ItemAfter;
    OnePickPasses(dated, usable, reserved, day, OldLines(s, r), ri, qty, statuses, complete);
    OneLine(Boxed(dated, usable, reserved), qty, statuses);
    OneItemAfter(ri, qty, statuses);
    assert s.requests[r].items.Keys == {1};
  }

  /** Within the request, the calculated status of a new total is always allowed. */
  lemma CalculatedStatusPasses(o: Lines, complete: bool, ri: ReqItem, qty: Qty)
    requires 0 < qty <= ri.request && (complete ==> qty == ri.request)
    ensures ItemPasses(AllStatuses(), o, Form(OnePick(qty), map[]), complete, 1, ri, qty)
    ensures ItemAfter(Form(OnePick(qty), map[]), 1, ri, qty)
            == ReqItem(ri.request, qty, CalculatedStatus(qty, ri.request))
  {
  }

  // ---------------------------------------------------------------- saving a draft

  /** An officer saves `qty` units of the batch for request `r`. */
  function SaveOf(r: int, version: int, day: int, qty: Qty): Action {
    ASaveDraft(r, "OFFICER", Posted(Some(version), None), day, Form(OnePick(qty), map[]))
  }

  lemma BatchAfterSave(s: State, dated: bool, usable: Qty, reserved: Qty, r: int, qty: Qty)
    requires Scene(s, dated, usable, reserved) && (r in s.packages ==> !s.packages[r].dispatched)
    requires 0 < qty
    ensures Shifted(s.stock.batches, OldLines(s, r), Positive(map[KEY := qty]))
            == map[BATCH := Boxed(dated, usable, reserved - QtyOf(OldLines(s, r), KEY) + qty)]
  {
    hide Good, Exact, OldLines;
    PendingClaim(s, r, BATCH);
    OneBatchShifts(dated, usable, reserved, OldLines(s, r), qty);
  }

  lemma OneBatchShifts(dated: bool, usable: Qty, reserved: Qty, o: Lines, qty: Qty)
    requires 0 <= QtyOf(o, KEY) <= reserved && 0 < qty
    ensures Shifted(map[BATCH := Boxed(dated, usable, reserved)], o, Positive(map[KEY := qty]))
            == map[BATCH := Boxed(dated, usable, reserved - QtyOf(o, KEY) + qty)]
  {
    assert Positive(map[KEY := qty]) == map[KEY := qty];
  }

  /** Filing a draft over a pending package, when its reservation succeeds. */
  lemma DraftFiles(s: State, r: int, d: Draft, st: Stock)
    requires r in s.requests && Reserve(s.stock, OldLines(s, r), Positive(d.lines)) == Some(st)
    ensures st.batches == Shifted(s.stock.batches, OldLines(s, r), Positive(d.lines))
    ensures FileDraft(s, r, "OFFICER", d)
            == Some(Filed(s, st, r, s.requests[r].(items := d.items, status := PART_FILLED,
                                                    version := s.requests[r].version + 1),
                          PackageOf(s, r, "OFFICER").(lines := d.lines, submitted := false)))
  {
    hide Shifted, ReservedRestated, SlotPasses, KeyPasses;
  }

  lemma SaveAttempt(s: State, r: int, posted: Posted, day: int, form: Form, d: Draft)
    requires Packable(s, r) && PrepareVersions(s, r, posted) && Prepared(s, r, day, form, false) == Some(d)
    ensures Attempt(s, ASaveDraft(r, "OFFICER", posted, day, form)) == FileDraft(s, r, "OFFICER", d)
  {
    hide Prepared, FileDraft;
  }

  lemma PendingSaveStays(s: State, a: Action)
    requires Good(s) && Exact(s) && a.ASaveDraft? && (a.r in s.packages ==> !s.packages[a.r].dispatched)
    ensures Good(Exec(s, a)) && Exact(Exec(s, a))
  {
    hide Good, Exact, Attempt;
    StepKeepsGood(s, a);
    StepExactIff(s, a);
  }

  /** Saving a quantity that is available and within the request commits and moves the reservation. */
  lemma SaveRuns(s: State, dated: bool, usable: Qty, reserved: Qty, r: int, ri: ReqItem, day: int, qty: Qty)
    requires Scene(s, dated, usable, reserved) && Packable(s, r) && s.requests[r].items == map[1 := ri]
    requires r in s.packages ==> !s.packages[r].dispatched
    requires 0 < qty <= ri.request && qty <= usable - reserved + QtyOf(OldLines(s, r), KEY) && (dated ==> day <= 5)
    ensures var a := SaveOf(r, s.requests[r].version, day, qty);
            var t := Exec(s, a);
            && Commits(s, a)
            && Scene(t, dated, usable, reserved - QtyOf(OldLines(s, r), KEY) + qty)
            && t.requests == s.requests[r := s.requests[r].(
                 items := map[1 := ReqItem(ri.request, qty, CalculatedStatus(qty, ri.request))],
                 status := PART_FILLED, version := s.requests[r].version + 1)]
            && t.packages == s.packages[r := PackageOf(s, r, "OFFICER").(lines := map[KEY := qty], submitted := false)]
            && t.nextRequest == s.nextRequest
  {
    hide Good, Exact, ItemPasses, ItemAfter, Prepared, Shifted, Attempt, FileDraft, Reserve, OldLines, PackageOf, Positive;
    var a := SaveOf(r, s.requests[r].version, day, qty);
    CalculatedStatusPasses(OldLines(s, r), false, ri, qty);
    OnePickPrepared(s, dated, usable, reserved, r, ri, day, qty, map[], false);
    var d := Draft(map[1 := ReqItem(ri.request, qty, CalculatedStatus(qty, ri.request))], map[KEY := qty]);
    BatchAfterSave(s, dated, usable, reserved, r, qty);
    ValidatedFormIsReserved(s, r, day, a.form, false);
    DraftFiles(s, r, d, Reserve(s.stock, OldLines(s, r), Positive(d.lines)).value);
    SaveAttempt(s, r, a.posted, day, a.form, d);
    PendingSaveStays(s, a);
  }

  // ---------------------------------------------------------------- committing

  lemma CommitOne(st: Stock, dated: bool, usable: Qty, reserved: Qty, qty: Qty)
    requires st.batches == map[BATCH := Boxed(dated, usable, reserved)] && 0 < qty <= usable
    ensures Commit(st, map[KEY := qty]).Some?
    ensures Commit(st, map[KEY := qty]).value.batches
            == map[BATCH := Boxed(dated, usable - qty, Max(0, reserved - qty))]
  {
    hide Restated;
    assert LinePasses(st.batches, map[KEY := qty], KEY);
  }

  lemma GateOfOne(request: Qty, qty: Qty, status: Status)
    requires 0 < qty
    ensures var items := map[1 := ReqItem(request, qty, status)];
            Gate(items, map[KEY := qty], AnyPositive(map[KEY := qty])) && Gate(items, map[KEY := qty], AnyIssued(items))
  {
    OneLineTotal(qty);
    hide LineTotal;
    var items, lines := map[1 := ReqItem(request, qty, status)], map[KEY := qty];
    assert KEY in lines && lines[KEY] > 0;
    assert 1 in items && items[1].issue > 0;
  }

  lemma ReviewAttempt(s: State, r: int, st: Stock)
    requires HasPending(s, r) && Gate(s.requests[r].items, s.packages[r].lines, AnyIssued(s.requests[r].items))
    requires Commit(s.stock, s.packages[r].lines) == Some(st)
    ensures Attempt(s, AReview(r))
            == Some(Filed(s, st, r, s.requests[r].(status := PART_FILLED, version := s.requests[r].version + 1),
                          s.packages[r].(dispatched := true)))
  {
    hide Gate, Commit, AnyIssued;
  }

  lemma ReviewStays(s: State, r: int)
    requires Good(s) && Exact(s)
    ensures Good(Exec(s, AReview(r))) && Exact(Exec(s, AReview(r)))
  {
    hide Good, Exact, Attempt;
    StepKeepsGood(s, AReview(r));
    StepExactIff(s, AReview(r));
  }

  // ---------------------------------------------------------------- one request that holds part of the batch

  function OneHeld(request: Qty, qty: Qty): seq<Action> {
    Delivery() + Admission(1, request) + [SaveOf(1, 3, 1, qty)]
  }

  function Holding(dispatched: bool, qty: Qty): Package {
    Package(dispatched, false, "OFFICER", 1, map[KEY := qty])
  }

  function Served(request: Qty, qty: Qty, version: int): Request {
    Asked(PART_FILLED, Some("DIRECTOR"), request, qty, CalculatedStatus(qty, request), version)
  }

  lemma AdmittedScene(dated: bool, request: Qty)
    requires 0 < request
    ensures var s := Run(Start(dated), Delivery() + Admission(1, request));
            && Scene(s, dated, 10000, 0) && s.nextRequest == 2
            && s.requests == map[1 := Admitted(request)] && s.packages == map[]
  {
    hide *;
    Delivered(dated);
    Admits(Run(Start(dated), Delivery()), dated, 10000, 0, 1, request);
    RunPlus(Start(dated), Delivery(), Admission(1, request));
  }

  lemma OneHeldScene(dated: bool, request: Qty, qty: Qty)
    requires 0 < qty <= request && qty <= 10000
    ensures var s := Run(Start(dated), OneHeld(request, qty));
            && Scene(s, dated, 10000, qty) && s.nextRequest == 2
            && s.requests == map[1 := Served(request, qty, 4)] && s.packages == map[1 := Holding(false, qty)]
  {
    hide Scene, Commits, Exec, Run, OldLines, PackageOf, Start, Delivery, Admission;
    AdmittedScene(dated, request);
    var s := Run(Start(dated), Delivery() + Admission(1, request));
    NothingHeld(s, 1);
    SaveRuns(s, dated, 10000, 0, 1, ReqItem(request, 0, Requested), 1, qty);
    RunThen(Start(dated), Delivery() + Admission(1, request), SaveOf(1, 3, 1, qty));
  }

  lemma NothingHeld(s: State, r: int)
    requires r !in s.packages
    ensures OldLines(s, r) == map[] && PackageOf(s, r, "OFFICER") == Package(false, false, "OFFICER", 1, map[])
  {
  }

  /** A second request holds 20.00 units beside the 40.00 of the first. */
  function TwoHeld(): seq<Action> {
    OneHeld(9000, 4000) + Admission(2, 9000) + [SaveOf(2, 3, 1, 2000)]
  }

  lemma TwoHeldScene()
    ensures var s := Run(Start(false), TwoHeld());
            && Scene(s, false, 10000, 6000)
            && s.requests == map[1 := Served(9000, 4000, 4), 2 := Served(9000, 2000, 4)]
            && s.packages == map[1 := Holding(false, 4000), 2 := Holding(false, 2000)]
  {
    hide Scene, Commits, Exec, Run, OldLines, PackageOf, Start, OneHeld, Admission;
    OneHeldScene(false, 9000, 4000);
    Admits(Run(Start(false), OneHeld(9000, 4000)), false, 10000, 4000, 2, 9000);
    RunPlus(Start(false), OneHeld(9000, 4000), Admission(2, 9000));
    var s := Run(Start(false), OneHeld(9000, 4000) + Admission(2, 9000));
    NothingHeld(s, 2);
    SaveRuns(s, false, 10000, 4000, 2, ReqItem(9000, 0, Requested), 1, 2000);
    RunThen(Start(false), OneHeld(9000, 4000) + Admission(2, 9000), SaveOf(2, 3, 1, 2000));
  }

  /** 10.00 of 30.00 units are dispatched. */
  function PartSent(): seq<Action> {
    OneHeld(3000, 1000) + [AReview(1)]
  }

  lemma PartSentScene()
    ensures var s := Run(Start(false), PartSent());
            && Scene(s, false, 9000, 0)
            && s.requests == map[1 := Served(3000, 1000, 5)] && s.packages == map[1 := Holding(true, 1000)]
  {
    hide Good, Exact, Attempt, Run, Commit, Gate;
    var e := Start(false);
    OneHeldScene(false, 3000, 1000);
    var s := Run(e, OneHeld(3000, 1000));
    RunThen(e, OneHeld(3000, 1000), AReview(1));
    GateOfOne(3000, 1000, PartlyFilled);
    CommitOne(s.stock, false, 10000, 1000, 1000);
    ReviewAttempt(s, 1, Commit(s.stock, map[KEY := 1000]).value);
    ReviewStays(s, 1);
  }

  // ---------------------------------------------------------------- one request marked unavailable

  function Nothing(): Form {
    Form(map[], map[1 := Unavailable])
  }

  function MarkOf(version: int): Action {
    ASaveDraft(1, "OFFICER", Posted(Some(version), None), 1, Nothing())
  }

  /** A draft is saved that marks the only item unavailable and picks nothing. */
  function Marked(): seq<Action> {
    Delivery() + Admission(1, 2000) + [MarkOf(3)]
  }

  lemma NothingTotal()
    ensures PickedTotal(Nothing(), 1) == 0
  {
    assert PicksOf(Nothing().picks, 1) == map[];
  }

  lemma NothingItem(o: Lines)
    ensures ItemPasses(AllStatuses(), o, Nothing(), false, 1, ReqItem(2000, 0, Requested), 0)
    ensures ItemAfter(Nothing(), 1, ReqItem(2000, 0, Requested), 0) == ReqItem(2000, 0, Unavailable)
  {
    hide HasActivity;
    assert Unavailable in AllStatuses();
  }

  lemma NothingLines(batches: map<int, Batch>, items: set<int>)
    ensures LinesAfter(batches, items, Nothing()) == map[]
  {
    assert forall k :: k !in LinesAfter(batches, items, Nothing());
  }

  lemma NothingPasses(batches: map<int, Batch>)
    ensures FormPasses(batches, 1, AllStatuses(), map[], map[1 := ReqItem(2000, 0, Requested)], Nothing(), false)
    ensures ItemsAfter(map[1 := ReqItem(2000, 0, Requested)], Nothing()) == map[1 := ReqItem(2000, 0, Unavailable)]
    ensures LinesAfter(batches, {1}, Nothing()) == map[]
  {
    hide PickedTotal, ItemPasses, ItemAfter, PickPasses, LinesAfter;
    NothingTotal();
    NothingItem(map[]);
    NothingLines(batches, {1});
  }

  lemma NothingPrepared(s: State)
    requires s.statuses == AllStatuses() && s.requests == map[1 := Admitted(2000)] && s.packages == map[]
    ensures Prepared(s, 1, 1, Nothing(), false) == Some(Draft(map[1 := ReqItem(2000, 0, Unavailable)], map[]))
  {
    hide FormPasses, ItemsAfter, LinesAfter;
    NothingPasses(s.stock.batches);
    assert s.requests[1].items.Keys == {1};
  }

  lemma MarkedScene()
    ensures var s := Run(Start(false), Marked());
            && Scene(s, false, 10000, 0)
            && s.requests == map[1 := Asked(PART_FILLED, Some("DIRECTOR"), 2000, 0, Unavailable, 4)]
            && s.packages == map[1 := Package(false, false, "OFFICER", 1, map[])]
  {
    hide Good, Exact, Attempt, Run, Prepared, Reserve, FileDraft;
    var e := Start(false);
    AdmittedScene(false, 2000);
    var s := Run(e, Delivery() + Admission(1, 2000));
    RunThen(e, Delivery() + Admission(1, 2000), MarkOf(3));
    NothingPrepared(s);
    var d := Draft(map[1 := ReqItem(2000, 0, Unavailable)], map[]);
    ValidatedFormIsReserved(s, 1, 1, Nothing(), false);
    DraftFiles(s, 1, d, Reserve(s.stock, OldLines(s, 1), Positive(d.lines)).value);
    assert Shifted(s.stock.batches, map[], map[]) == s.stock.batches;
    SaveAttempt(s, 1, Posted(Some(3), None), 1, Nothing(), d);
    PendingSaveStays(s, MarkOf(3));
  }
}
