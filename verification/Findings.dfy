/** Runs of a new installation after which a promise fails, next to the theorems that say exactly when it holds. */
module Findings {
  import opened Stock
  import opened ItemStatuses
  import opened Allocation
  import opened Packaging
  import opened Intake
  import opened Workflow
  import opened Safety
  import opened Ledger
  import opened Conservation
  import opened Dispatch
  import opened Reservations
  import opened BatchNumbers
  import opened AutoAllocation
  import opened Drawer
  import opened Scenes

  // ---------------------------------------------------------------- approving edited lines

  /** The manager approves package 1 with `qty` units; 40.00 are reserved for it. */
  function EditedApproval(qty: Qty): Action {
    AApprove(1, Posted(Some(4), Some(1)), 1, Form(OnePick(qty), map[]))
  }

  lemma ApproveAttempt(s: State, r: int, posted: Posted, day: int, form: Form, d: Draft)
    requires HasPending(s, r) && ApproveVersions(s, r, posted) && Prepared(s, r, day, form, false) == Some(d)
    requires Gate(d.items, d.lines, AnyPositive(d.lines)) && Commit(s.stock, d.lines).Some?
    ensures Commits(s, AApprove(r, posted, day, form))
  {
    hide Prepared, Gate, Commit, AnyPositive;
  }

  lemma EditedApprovalCommits(qty: Qty)
    requires 0 < qty <= 8000
    ensures Commits(Run(Start(false), TwoHeld()), EditedApproval(qty))
  {
    hide Good, Exact, Run, ItemPasses, ItemAfter, Prepared, Commit, Gate, Commits;
    TwoHeldScene();
    var s := Run(Start(false), TwoHeld());
    var ri := s.requests[1].items[1];
    CalculatedStatusPasses(OldLines(s, 1), false, ri, qty);
    OnePickPrepared(s, false, 10000, 6000, 1, ri, 1, qty, map[], false);
    GateOfOne(9000, qty, CalculatedStatus(qty, 9000));
    CommitOne(s.stock, false, 10000, 6000, qty);
    ApproveAttempt(s, 1, Posted(Some(4), Some(1)), 1, Form(OnePick(qty), map[]),
                   Draft(map[1 := ReqItem(9000, qty, CalculatedStatus(qty, 9000))], map[KEY := qty]));
  }

  lemma EditedApprovalFitsIff(s: State, qty: Qty)
    requires Scene(s, false, 10000, 6000) && 0 < qty
    requires 1 in s.requests && s.requests[1].items.Keys == {1}
    requires 1 in s.packages && s.packages[1] == Holding(false, 4000)
    ensures CommitFits(s, 1, LinesAfter(s.stock.batches, s.requests[1].items.Keys, Form(OnePick(qty), map[]))) <==> qty == 4000
  {
    hide Good, Exact, LinesAfter;
    OneLine(Boxed(false, 10000, 6000), qty, map[]);
    assert CommitFitsBatch(s, 1, map[KEY := qty], BATCH) <==> qty == 4000;
  }

  /** With two packages pending, every approval of the first that fits the shelf goes through, and it keeps the
      ledger exact only if the quantity was not edited. More than was reserved eats into the other package's
      reservation; less leaves units reserved for nobody. */
  lemma EditedApprovalBreaksLedger(qty: Qty)
    requires 0 < qty <= 8000
    ensures var s := Run(Start(false), TwoHeld());
            && Good(s) && Exact(s) && Commits(s, EditedApproval(qty))
            && (Exact(Exec(s, EditedApproval(qty))) <==> qty == 4000)
            && Exec(s, EditedApproval(qty)).stock.batches == map[BATCH := Boxed(false, 10000 - qty, Max(0, 6000 - qty))]
            && Own(Exec(s, EditedApproval(qty)).packages, 2, KEY) == 2000
  {
    var s := Run(Start(false), TwoHeld());
    hide Run, Good, Exact, CommitFits, Attempt;
    TwoHeldScene();
    EditedApprovalCommits(qty);
    EditedApprovalFitsIff(s, qty);
    StepExactIff(s, EditedApproval(qty));
    EditedApprovalStock(s, qty);
  }

  lemma EditedApprovalStock(s: State, qty: Qty)
    requires Scene(s, false, 10000, 6000) && 0 < qty <= 8000 && Commits(s, EditedApproval(qty))
    requires 1 in s.requests && s.requests[1].items.Keys == {1}
    requires 2 in s.packages && s.packages[2] == Holding(false, 2000)
    ensures var t := Exec(s, EditedApproval(qty));
            && t.stock.batches == map[BATCH := Boxed(false, 10000 - qty, Max(0, 6000 - qty))]
            && Own(t.packages, 2, KEY) == 2000
  {
    hide Good, Exact, Attempt, Dispatching, DraftSound, Gate, FormPasses, LinesAfter;
    var t := Exec(s, EditedApproval(qty));
    var d, p := ApprovingStep(s, EditedApproval(qty), t);
    OneLine(Boxed(false, 10000, 6000), qty, map[]);
    DispatchingShape(s, 1, d, p, t);
  }

  // ---------------------------------------------------------------- cancelling

  /** Cancelling a pending package discards its lines and leaves its units reserved for nobody, whatever it held. */
  lemma CancelBreaksLedger(request: Qty, qty: Qty)
    requires 0 < qty <= request && qty <= 10000
    ensures var s := Run(Start(false), OneHeld(request, qty));
            && Good(s) && Exact(s) && Commits(s, ACancel(1))
            && !Exact(Exec(s, ACancel(1)))
            && Exec(s, ACancel(1)).stock == s.stock && Share(Exec(s, ACancel(1)).packages, KEY) == 0
  {
    var s := Run(Start(false), OneHeld(request, qty));
    hide Run, Good, Exact, DiscardFits, Release, Share;
    OneHeldScene(false, request, qty);
    ReleaseNothing(s.stock);
    CancelMisfits(s, qty);
    StepExactIff(s, ACancel(1));
    UnnamedShare(Exec(s, ACancel(1)), KEY);
  }

  lemma CancelMisfits(s: State, qty: Qty)
    requires s.stock.batches == map[BATCH := Boxed(false, 10000, qty)] && s.packages == map[1 := Holding(false, qty)]
    requires 0 < qty
    ensures !DiscardFits(s, 1, map[])
  {
    assert !DiscardFitsBatch(s, 1, map[], BATCH);
  }

  // ---------------------------------------------------------------- sending a dispatched package again

  /** The package, already dispatched with 10.00 units, is sent again with 30.00. */
  function SecondSend(): Action {
    ASend(1, "MANAGER", Posted(Some(5), Some(1)), 1, Form(OnePick(3000), map[]))
  }

  lemma SendAttempt(s: State, r: int, posted: Posted, day: int, form: Form, d: Draft)
    requires Packable(s, r) && PrepareVersions(s, r, posted) && Prepared(s, r, day, form, true) == Some(d)
    requires Commit(s.stock, d.lines).Some?
    ensures Commits(s, ASend(r, "MANAGER", posted, day, form))
  {
    hide Prepared, Commit;
  }

  lemma SecondSendCommits()
    ensures Commits(Run(Start(false), PartSent()), SecondSend())
  {
    hide Good, Exact, Run, ItemPasses, ItemAfter, Prepared, Commit, Commits;
    PartSentScene();
    var s := Run(Start(false), PartSent());
    var ri := s.requests[1].items[1];
    CalculatedStatusPasses(OldLines(s, 1), true, ri, 3000);
    OnePickPrepared(s, false, 9000, 0, 1, ri, 1, 3000, map[], true);
    CommitOne(s.stock, false, 9000, 0, 3000);
    SendAttempt(s, 1, Posted(Some(5), Some(1)), 1, Form(OnePick(3000), map[]),
                Draft(map[1 := ReqItem(3000, 3000, Filled)], map[KEY := 3000]));
  }

  lemma FirstLoad(s: State)
    requires s.packages == map[1 := Holding(true, 1000)]
    ensures Load(s.packages, 1, 1) == 1000
  {
    OneLineTotal(1000);
  }

  /** The second dispatch takes its 30.00 units and overwrites the record of the first 10.00. */
  lemma SecondSendLosesStock()
    ensures var s := Run(Start(false), PartSent());
            && Good(s) && Commits(s, SecondSend())
            && Account(Exec(s, SecondSend()), 1) == Account(s, 1) - 1000
  {
    hide Attempt, Run, Good, Exact, Account, Load;
    PartSentScene();
    SecondSendCommits();
    FirstLoad(Run(Start(false), PartSent()));
    StepAccount(Run(Start(false), PartSent()), SecondSend(), 1);
  }

  // ---------------------------------------------------------------- saving over a dispatched package

  /** An officer saves the package, already dispatched with 10.00 units, as a draft with 30.00. */
  function LateSave(): Action {
    ASaveDraft(1, "OFFICER", Posted(Some(5), Some(1)), 1, Form(OnePick(3000), map[]))
  }

  lemma LateSaveCommits()
    ensures Commits(Run(Start(false), PartSent()), LateSave())
  {
    hide Good, Exact, Run, ItemPasses, ItemAfter, Prepared, Reserve, Attempt, FileDraft;
    PartSentScene();
    var s := Run(Start(false), PartSent());
    var ri := s.requests[1].items[1];
    CalculatedStatusPasses(OldLines(s, 1), false, ri, 3000);
    OnePickPrepared(s, false, 9000, 0, 1, ri, 1, 3000, map[], false);
    var d := Draft(map[1 := ReqItem(3000, 3000, Filled)], map[KEY := 3000]);
    ValidatedFormIsReserved(s, 1, 1, Form(OnePick(3000), map[]), false);
    DraftFiles(s, 1, d, Reserve(s.stock, OldLines(s, 1), Positive(d.lines)).value);
    SaveAttempt(s, 1, Posted(Some(5), Some(1)), 1, Form(OnePick(3000), map[]), d);
  }

  lemma LateSaveMisfits(s: State)
    requires s.stock.batches == map[BATCH := Boxed(false, 9000, 0)] && s.packages == map[1 := Holding(true, 1000)]
    requires 1 in s.requests && s.requests[1].items.Keys == {1}
    ensures !SaveFits(s, 1, LinesAfter(s.stock.batches, s.requests[1].items.Keys, Form(OnePick(3000), map[])))
  {
    OneLine(Boxed(false, 9000, 0), 3000, map[]);
    hide LinesAfter;
    assert !SaveFitsBatch(s, 1, map[KEY := 3000], BATCH);
  }

  /** The save goes through and reserves 20.00 more units for a package that is no longer pending. */
  lemma LateSaveBreaksLedger()
    ensures var s := Run(Start(false), PartSent());
            && Good(s) && Exact(s) && Commits(s, LateSave())
            && !Exact(Exec(s, LateSave()))
  {
    hide Attempt, Run, Good, Exact, SaveFits;
    var s := Run(Start(false), PartSent());
    PartSentScene();
    LateSaveCommits();
    assert s.requests[1].items.Keys == {1};
    LateSaveMisfits(s);
    StepExactIff(s, LateSave());
  }

  // ---------------------------------------------------------------- a status that does not fit

  /** The item stays marked unavailable while 5.00 units are sent for it. */
  function SilentSend(): Action {
    ASend(1, "MANAGER", Posted(Some(4), Some(1)), 1, Form(OnePick(500), map[1 := Unavailable]))
  }

  lemma UnavailablePasses(o: Lines, ri: ReqItem, qty: Qty)
    requires qty <= ri.request && ri.status == Unavailable
    ensures ItemPasses(AllStatuses(), o, Form(OnePick(qty), map[1 := Unavailable]), true, 1, ri, qty)
  {
  }

  lemma SilentSendCommits()
    ensures Commits(Run(Start(false), Marked()), SilentSend())
  {
    hide Good, Exact, Run, ItemPasses, Prepared, Commit, Commits;
    MarkedScene();
    var s := Run(Start(false), Marked());
    var ri := s.requests[1].items[1];
    UnavailablePasses(OldLines(s, 1), ri, 500);
    OnePickPrepared(s, false, 10000, 0, 1, ri, 1, 500, map[1 := Unavailable], true);
    CommitOne(s.stock, false, 10000, 0, 500);
    SendAttempt(s, 1, Posted(Some(4), Some(1)), 1, Form(OnePick(500), map[1 := Unavailable]),
                Draft(map[1 := ReqItem(2000, 0, Unavailable)], map[KEY := 500]));
  }

  /** The 5.00 units leave the shelf and the item reports that nothing was issued. */
  lemma SilentSendMisreports()
    ensures var s := Run(Start(false), Marked());
            var t := Exec(s, SilentSend());
            && Good(s) && Exact(s) && Commits(s, SilentSend())
            && 1 in t.requests && 1 in t.requests[1].items && !ReportsTruth(s, t, 1, 1)
  {
    hide Attempt, Run, Good, Exact, ReportsTruth, PickedTotal;
    var s := Run(Start(false), Marked());
    MarkedScene();
    SilentSendCommits();
    OnePickTotal(500, map[1 := Unavailable]);
    assert 1 in s.requests[1].items;
    SendIsTruthfulIff(s, SilentSend(), 1);
  }

  // ---------------------------------------------------------------- batches the drawer hides from their package

  /** A package that reserved the whole batch asks for it: whatever the demand, the drawer is empty. */
  lemma FullBatchIsHidden(open: set<int>, list: seq<Held>, remaining: Qty)
    requires Answers(Run(Start(false), OneHeld(10000, 10000)).stock, open, 1, None, None, list)
    ensures var s := Run(Start(false), OneHeld(10000, 10000));
            var ask := Ask(Item(false, FIFO), 1, remaining, {BATCH}, map[BATCH := 10000]);
            s.packages == map[1 := Holding(false, 10000)] && ShortList(ask, list, WarehousesOf(list)) == []
  {
    hide Run, Good, Exact, Answers;
    OneHeldScene(false, 10000, 10000);
    FullBatchIsNoAnswer(Run(Start(false), OneHeld(10000, 10000)).stock, open, list);
  }

  lemma FullBatchIsNoAnswer(st: Stock, open: set<int>, list: seq<Held>)
    requires st.batches == map[BATCH := Boxed(false, 10000, 10000)] && Answers(st, open, 1, None, None, list)
    ensures list == []
  {
    assert list != [] ==> IsAvailable(st, open, 1, None, None, list[0]);
  }

  /** A package that reserved 40.00 of 100.00 units on day 1 asks for them on day 10: the batch expired on day 5, and
      the drawer no longer shows it, although 60.00 units are left. */
  lemma ExpiredBatchIsHidden(open: set<int>, list: seq<Held>, remaining: Qty)
    requires Answers(Run(Start(true), OneHeld(9000, 4000)).stock, open, 1, None, None, list)
    ensures var s := Run(Start(true), OneHeld(9000, 4000));
            var ask := Ask(Item(true, FEFO), 10, remaining, {BATCH}, map[BATCH := 4000]);
            && s.packages == map[1 := Holding(false, 4000)] && s.stock.batches == map[BATCH := Boxed(true, 10000, 4000)]
            && Held(BATCH, Boxed(true, 10000, 4000)) !in ShortList(ask, list, WarehousesOf(list))
  {
    hide Run, Good, Exact, ShortList;
    OneHeldScene(true, 9000, 4000);
    var ask := Ask(Item(true, FEFO), 10, remaining, {BATCH}, map[BATCH := 4000]);
    AllottedOnDisplayIff(Run(Start(true), OneHeld(9000, 4000)).stock, open, 1, None, list, ask, BATCH);
  }

  // ---------------------------------------------------------------- expired stock of an item that cannot expire

  /** The batch is taken in with its expiry date, a request is admitted, and then the item page clears the flag. */
  function Cleared(): seq<Action> {
    Delivery() + Admission(1, 9000) + [AEditCatalog(1, 1, false, true)]
  }

  lemma ClearedScene()
    ensures var s := Run(Start(true), Cleared());
            && Good(s) && s.stock.batches == map[BATCH := Boxed(true, 10000, 0)]
            && s.catalog == map[1 := CatalogItem(false, true, 2)]
            && s.requests == map[1 := Admitted(9000)] && s.packages == map[]
  {
    hide Run, Good, Exact;
    var e := Start(true);
    AdmittedScene(true, 9000);
    RunThen(e, Delivery() + Admission(1, 9000), AEditCatalog(1, 1, false, true));
    StepKeepsGood(Run(e, Delivery() + Admission(1, 9000)), AEditCatalog(1, 1, false, true));
  }

  /** On day 10 automatic allocation proposes the batch that expired on day 5, validation refuses the proposed line,
      and no draft can be saved with it. */
  lemma ExpiredStockIsProposed(open: set<int>, list: seq<Held>, want: Qty)
    requires 1 in open && 0 < want <= 9000
    requires Answers(Run(Start(true), Cleared()).stock, open, 1, None, None, list)
    ensures var s := Run(Start(true), Cleared());
            var form := AutoForm(list, Item(false, FIFO), 10, want, 1);
            && !DatesFit(s)
            && form.picks == map[Pick(1, BATCH) := want]
            && !PickPasses(s.stock.batches, 10, map[], Pick(1, BATCH), want)
            && !Commits(s, ASaveDraft(1, "OFFICER", Posted(Some(3), None), 10, form))
  {
    var s := Run(Start(true), Cleared());
    var h, item := Held(BATCH, Boxed(true, 10000, 0)), Item(false, FIFO);
    hide Run, Good, AutoForm, Commits;
    ClearedScene();
    BoxedIsTheAnswer(s, open, list);
    ProposedAlone(h, item, want);
    var form := AutoForm(list, item, 10, want, 1);
    assert !DatesFit(s) by {
      assert BATCH in s.stock.batches && !CanExpire(s.catalog, 1);
    }
    StaleFormRefused(s, form, want);
  }

  lemma BoxedIsTheAnswer(s: State, open: set<int>, list: seq<Held>)
    requires Good(s) && s.stock.batches == map[BATCH := Boxed(true, 10000, 0)] && 1 in open
    requires Answers(s.stock, open, 1, None, None, list)
    ensures list == [Held(BATCH, Boxed(true, 10000, 0))]
  {
    var h := Held(BATCH, Boxed(true, 10000, 0));
    assert BatchSound(s.stock, BATCH);
    assert IsAvailable(s.stock, open, 1, None, None, h);
    assert h in list;
    forall i | 0 <= i < |list| ensures list[i] == h {
      assert list[i] in list;
    }
    assert |list| <= 1 by {
      assert |list| > 1 ==> list[0].id != list[1].id;
    }
  }

  lemma ProposedAlone(h: Held, item: Item, want: Qty)
    requires IsLive(h, item.canExpire, 10) && 0 < want <= Available(h)
    ensures AutoForm([h], item, 10, want, 1).picks == map[Pick(1, h.id) := want]
  {
    OneIsSorted(h, item, 10);
    OneDraw(h, want);
    hide SortByRule, AutoDraws;
    assert DrawPicks([Draw(h.id, h.batch.warehouse, want)][..0], 1) == map[];
  }

  lemma StaleFormRefused(s: State, form: Form, want: Qty)
    requires s.stock.batches == map[BATCH := Boxed(true, 10000, 0)] && 0 < want
    requires s.requests == map[1 := Admitted(9000)] && s.packages == map[]
    requires form.picks == map[Pick(1, BATCH) := want]
    ensures !PickPasses(s.stock.batches, 10, map[], Pick(1, BATCH), want)
    ensures !Commits(s, ASaveDraft(1, "OFFICER", Posted(Some(3), None), 10, form))
  {
    assert !PickPasses(s.stock.batches, 10, map[], Pick(1, BATCH), want);
    assert Pick(1, BATCH) in form.picks && OldLines(s, 1) == map[];
    hide PickPasses, ItemPasses, FileDraft;
  }

  lemma OneIsSorted(h: Held, item: Item, today: int)
    requires IsLive(h, item.canExpire, today)
    ensures SortByRule([h], item, today) == [h]
  {
    assert [h][1..] == [];
    assert Live([], item.canExpire, today) == [];
    assert Live([h], item.canExpire, today) == [h];
    assert Sort(OrderOf(item), []) == [];
    assert Insert(OrderOf(item), h, []) == [h];
  }

  lemma OneDraw(h: Held, want: Qty)
    requires 0 < want <= Available(h)
    ensures AutoDraws([h], want) == [Draw(h.id, h.batch.warehouse, want)]
  {
    hide AutoDraws, AutoDrawn;
    NothingDrawn(want);
    AutoSnoc([], h, want);
    assert [] + [h] == [h];
  }
}
