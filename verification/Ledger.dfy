/** The exact ledger: when each batch's reserved quantity is the sum of what the pending packages hold of it,
    exactly which transactions keep it so, and what a reservation is then worth. */
module Ledger {
  import opened Sums
  import opened Stock
  import opened Packaging
  import opened Intake
  import opened Workflow
  import opened Safety
  import opened Reservations
  import opened BatchNumbers

  /** What each pending package claims of one line key. */
  ghost function Claims(packages: map<int, Package>, k: LineKey): map<int, Qty> {
    map r | r in packages && !packages[r].dispatched :: QtyOf(packages[r].lines, k)
  }

  ghost function Share(packages: map<int, Package>, k: LineKey): Qty {
    Sum(Claims(packages, k))
  }

  ghost predicate BatchExact(s: State, id: int)
    requires id in s.stock.batches
  {
    s.stock.batches[id].reserved == Share(s.packages, KeyOf(id, s.stock.batches[id]))
  }

  ghost predicate Exact(s: State) {
    forall id :: id in s.stock.batches ==> BatchExact(s, id)
  }

  /** The claim of a single package. */
  function Own(packages: map<int, Package>, r: int, k: LineKey): Qty {
    if r in packages && !packages[r].dispatched then QtyOf(packages[r].lines, k) else 0
  }

  /** Filing a package moves the share by the change of that package's own claim. */
  lemma ShareUpdate(packages: map<int, Package>, r: int, p: Package, k: LineKey)
    ensures Share(packages[r := p], k) == Share(packages, k) - Own(packages, r, k) + Own(packages[r := p], r, k)
  {
    var before, after := Claims(packages, k), Claims(packages[r := p], k);
    if p.dispatched {
      if r in before {
        assert after == before - {r};
        SumRemove(before, r);
      } else {
        assert after == before;
      }
    } else {
      assert after == before[r := QtyOf(p.lines, k)];
      SumUpdate(before, r, QtyOf(p.lines, k));
    }
  }

  /** In an exact ledger no package claims more of a batch than is reserved on it. */
  lemma OwnIsReserved(s: State, r: int, id: int)
    requires Good(s) && Exact(s) && id in s.stock.batches
    ensures 0 <= Own(s.packages, r, KeyOf(id, s.stock.batches[id])) <= s.stock.batches[id].reserved
  {
    var k := KeyOf(id, s.stock.batches[id]);
    var claims := Claims(s.packages, k);
    forall x | x in claims ensures 0 <= claims[x] {
      assert PackageSound(s, x);
    }
    assert BatchExact(s, id);
    if r in claims {
      SumAtLeast(claims, r);
    } else {
      SumNonNegative(claims);
    }
  }

  /** Filing keeps the ledger exact iff every batch moves by the change of the package's own claim. */
  lemma FilingExactIff(s: State, t: State, r: int)
    requires Exact(s) && r in t.packages && t.packages == s.packages[r := t.packages[r]]
    requires SameShape(s.stock.batches, t.stock.batches)
    ensures Exact(t) <==> forall id :: id in s.stock.batches ==> Balanced(s, t, r, id)
  {
    forall id | id in s.stock.batches ensures BatchExact(t, id) <==> Balanced(s, t, r, id) {
      assert BatchExact(s, id);
      ShareUpdate(s.packages, r, t.packages[r], KeyOf(id, s.stock.batches[id]));
    }
    if Exact(t) {
      forall id | id in s.stock.batches ensures Balanced(s, t, r, id) {
        assert BatchExact(t, id);
      }
    }
  }

  ghost predicate Balanced(s: State, t: State, r: int, id: int)
    requires id in s.stock.batches && id in t.stock.batches
  {
    var k := KeyOf(id, s.stock.batches[id]);
    t.stock.batches[id].reserved - s.stock.batches[id].reserved == Own(t.packages, r, k) - Own(s.packages, r, k)
  }

  // ---------------------------------------------------------------- exactly which steps keep the ledger exact

  /** Saving lines into a package that was already dispatched is only harmless where the lines are unchanged,
      or go down on a batch nobody reserves. */
  ghost predicate SaveFits(s: State, r: int, n: Lines) {
    r in s.packages && s.packages[r].dispatched ==>
      forall id :: id in s.stock.batches ==> SaveFitsBatch(s, r, n, id)
  }

  ghost predicate SaveFitsBatch(s: State, r: int, n: Lines, id: int)
    requires id in s.stock.batches && r in s.packages
  {
    var b := s.stock.batches[id];
    var was, now := QtyOf(s.packages[r].lines, KeyOf(id, b)), QtyOf(n, KeyOf(id, b));
    now == was || (b.reserved == 0 && now < was)
  }

  /** Committing lines must take what was reserved, or more where the package is the batch's only holder. */
  ghost predicate CommitFitsBatch(s: State, r: int, n: Lines, id: int)
    requires id in s.stock.batches
  {
    var b := s.stock.batches[id];
    var was, now := Own(s.packages, r, KeyOf(id, b)), QtyOf(n, KeyOf(id, b));
    now == was || (b.reserved == was && now > was)
  }

  ghost predicate CommitFits(s: State, r: int, n: Lines) {
    forall id :: id in s.stock.batches ==> CommitFitsBatch(s, r, n, id)
  }

  /** Giving back `freed` while discarding the package's lines must give back just its own claim. */
  ghost predicate DiscardFitsBatch(s: State, r: int, freed: Lines, id: int)
    requires id in s.stock.batches
  {
    var b := s.stock.batches[id];
    var own, back := Own(s.packages, r, KeyOf(id, b)), QtyOf(freed, KeyOf(id, b));
    back == own || (b.reserved == own && back > own)
  }

  ghost predicate DiscardFits(s: State, r: int, freed: Lines) {
    forall id :: id in s.stock.batches ==> DiscardFitsBatch(s, r, freed, id)
  }

  lemma PositiveQty(lines: Lines, k: LineKey)
    requires forall x :: x in lines ==> 0 <= lines[x]
    ensures QtyOf(Positive(lines), k) == QtyOf(lines, k) >= 0
  {
  }

  /** Saving moves the reserved quantity of a batch in step with the package's own claim, unless the package
      was already dispatched and the line changes. */
  lemma SavedBatchBalanced(b: Batch, was: Qty, now: Qty, own: Qty, gone: bool)
    requires 0 <= own <= b.reserved && 0 <= was && 0 <= now
    requires own == if gone then 0 else was
    ensures Shift(b, now - was).reserved - b.reserved == (if gone then 0 else now) - own
            <==> (gone ==> now == was || (b.reserved == 0 && now < was))
  {
  }

  lemma SavedBalanced(s: State, r: int, d: Draft, v: int, p: Package, t: State, id: int)
    requires Good(s) && Exact(s) && Reserving(s, r, d, v, p, t) && DraftSound(s, r, d)
    requires id in s.stock.batches && id in t.stock.batches
    ensures Balanced(s, t, r, id)
            <==> (r in s.packages && s.packages[r].dispatched ==> SaveFitsBatch(s, r, d.lines, id))
  {
    hide Good, Exact, Reserving, Positive, SameShape;
    ReservingShape(s, r, d, v, p, t);
    OldLinesSound(s, r);
    OwnIsReserved(s, r, id);
    var k := KeyOf(id, s.stock.batches[id]);
    PositiveQty(d.lines, k);
    SavedBatchBalanced(s.stock.batches[id], QtyOf(OldLines(s, r), k), QtyOf(d.lines, k), Own(s.packages, r, k),
                       r in s.packages && s.packages[r].dispatched);
  }

  lemma ReservingExactIff(s: State, r: int, d: Draft, v: int, p: Package, t: State)
    requires Good(s) && Exact(s) && Reserving(s, r, d, v, p, t) && DraftSound(s, r, d)
    ensures Exact(t) <==> SaveFits(s, r, d.lines)
  {
    ReservingShape(s, r, d, v, p, t);
    FilingExactIff(s, t, r);
    hide Good, Exact, Reserving, DraftSound, Balanced, SaveFitsBatch;
    forall id | id in s.stock.batches
      ensures Balanced(s, t, r, id) <==> (r in s.packages && s.packages[r].dispatched ==> SaveFitsBatch(s, r, d.lines, id))
    {
      SavedBalanced(s, r, d, v, p, t, id);
    }
  }

  lemma DispatchedBatchBalanced(b: Batch, own: Qty, now: Qty)
    requires 0 <= own <= b.reserved && 0 <= now
    ensures Deducted(b, now).reserved - b.reserved == 0 - own <==> (now == own || (b.reserved == own && now > own))
    ensures Freed(b, now).reserved == Deducted(b, now).reserved
  {
  }

  lemma DispatchedBalanced(s: State, r: int, d: Draft, p: Package, t: State, id: int)
    requires Good(s) && Exact(s) && Dispatching(s, r, d, p, t) && DraftSound(s, r, d)
    requires id in s.stock.batches && id in t.stock.batches
    ensures Balanced(s, t, r, id) <==> CommitFitsBatch(s, r, d.lines, id)
  {
    DispatchingShape(s, r, d, p, t);
    OwnIsReserved(s, r, id);
    hide Good, Exact, Dispatching;
    var b := s.stock.batches[id];
    DispatchedBatchBalanced(b, Own(s.packages, r, KeyOf(id, b)), QtyOf(d.lines, KeyOf(id, b)));
  }

  lemma DispatchingExactIff(s: State, r: int, d: Draft, p: Package, t: State)
    requires Good(s) && Exact(s) && Dispatching(s, r, d, p, t) && DraftSound(s, r, d)
    ensures Exact(t) <==> CommitFits(s, r, d.lines)
  {
    DispatchingShape(s, r, d, p, t);
    FilingExactIff(s, t, r);
    hide Good, Exact, Dispatching, DraftSound, Balanced, CommitFitsBatch;
    forall id | id in s.stock.batches ensures Balanced(s, t, r, id) <==> CommitFitsBatch(s, r, d.lines, id) {
      DispatchedBalanced(s, r, d, p, t, id);
    }
  }

  lemma DiscardingExactIff(s: State, r: int, freed: Lines, t: State)
    requires Good(s) && Exact(s) && Discarding(s, r, freed, t)
    requires forall k :: k in freed ==> 0 <= freed[k]
    ensures Exact(t) <==> DiscardFits(s, r, freed)
  {
    DiscardingShape(s, r, freed, t);
    FilingExactIff(s, t, r);
    hide Good, Exact, Release;
    forall id | id in s.stock.batches
      ensures Balanced(s, t, r, id) <==> DiscardFitsBatch(s, r, freed, id)
    {
      var b := s.stock.batches[id];
      OwnIsReserved(s, r, id);
      DispatchedBatchBalanced(b, Own(s.packages, r, KeyOf(id, b)), QtyOf(freed, KeyOf(id, b)));
    }
  }

  /** A batch that no line names is claimed by nobody. */
  lemma UnnamedShare(s: State, k: LineKey)
    requires forall r :: r in s.packages ==> k !in s.packages[r].lines
    ensures Share(s.packages, k) == 0
  {
    var claims := Claims(s.packages, k);
    forall r | r in claims ensures claims[r] == 0 {
      assert r in s.packages;
    }
    SumZero(claims);
  }

  /** Intake never disturbs an exact ledger: new batches start unreserved and unclaimed. */
  lemma TakingInExact(s: State, a: Action)
    requires Good(s) && Exact(s) && Commits(s, a) && a.ATakeIn?
    ensures Exact(Exec(s, a))
  {
    var t := Exec(s, a);
    var y := Yard(s.stock, s.nextBatch);
    ReceiveAllExtends(y, a.warehouse, Arrivals(s.catalog, a.sheet, s.donations[a.d].items));
    forall id | id in t.stock.batches ensures BatchExact(t, id) {
      if id in s.stock.batches {
        assert BatchExact(s, id);
      } else {
        forall r | r in s.packages ensures KeyOf(id, t.stock.batches[id]) !in s.packages[r].lines {
          assert PackageSound(s, r);
        }
        UnnamedShare(s, KeyOf(id, t.stock.batches[id]));
      }
    }
  }

  /** The condition, checkable before the step, under which a transaction keeps the ledger exact. */
  ghost predicate Disciplined(s: State, a: Action) {
    !Commits(s, a) ||
    match a
    case ASaveDraft(r, _, _, today, form) => SaveFits(s, r, LinesAfter(s.stock.batches, s.requests[r].items.Keys, form))
    case AApprove(r, _, today, form) => CommitFits(s, r, LinesAfter(s.stock.batches, s.requests[r].items.Keys, form))
    case ASend(r, _, _, today, form) => CommitFits(s, r, LinesAfter(s.stock.batches, s.requests[r].items.Keys, form))
    case ACancel(r) => r in s.packages ==> DiscardFits(s, r, map[])
    case ARelease(r) => r in s.packages ==> DiscardFits(s, r, s.packages[r].lines)
    case _ => true
  }

  lemma SavingExactIff(s: State, a: Action, t: State)
    requires Good(s) && Exact(s) && a.ASaveDraft? && Attempt(s, a) == Some(t)
    ensures Exact(t) <==> Disciplined(s, a)
  {
    hide Good, Exact, SaveFits, FormPasses, DraftSound, Reserving;
    var d, v, p := ReservingStep(s, a, t);
    ReservingExactIff(s, a.r, d, v, p, t);
  }

  lemma PendingSaveExact(s: State, a: Action, t: State)
    requires Good(s) && Exact(s) && (a.ASubmit? || a.ASaveApproval?) && Attempt(s, a) == Some(t)
    ensures Exact(t)
  {
    hide Good, Exact, FormPasses, DraftSound, Reserving;
    var d, v, p := ReservingStep(s, a, t);
    ReservingExactIff(s, a.r, d, v, p, t);
  }

  lemma CommittingExactIff(s: State, a: Action, t: State)
    requires Good(s) && Exact(s) && (a.AApprove? || a.ASend?) && Attempt(s, a) == Some(t)
    ensures Exact(t) <==> Disciplined(s, a)
  {
    hide Good, Exact, CommitFits, FormPasses, DraftSound, Dispatching;
    var d, p := DispatchingStep(s, a, t);
    DispatchingExactIff(s, a.r, d, p, t);
  }

  lemma DiscardExactIff(s: State, a: Action, t: State)
    requires Good(s) && Exact(s) && (a.ACancel? || a.ARelease?) && Attempt(s, a) == Some(t)
    ensures Exact(t) <==> Disciplined(s, a)
  {
    hide Exact, DiscardFits, Discarding;
    DiscardingStep(s, a, t);
    if a.r in s.packages {
      assert PackageSound(s, a.r);
      DiscardingExactIff(s, a.r, if a.ACancel? then map[] else s.packages[a.r].lines, t);
    }
  }

  /** One step from an exact ledger stays exact if and only if it is disciplined. Submitting, saving an
      approval, reviewing, intake and all request steps always are. */
  lemma StepExactIff(s: State, a: Action)
    requires Good(s) && Exact(s)
    ensures Exact(Exec(s, a)) <==> Disciplined(s, a)
  {
    hide Attempt, Good, Exact, SaveFits, CommitFits, DiscardFits;
    if Commits(s, a) {
      var t := Exec(s, a);
      if a.ASaveDraft? {
        SavingExactIff(s, a, t);
      } else if a.ASubmit? || a.ASaveApproval? {
        PendingSaveExact(s, a, t);
      } else if a.AApprove? || a.ASend? {
        CommittingExactIff(s, a, t);
      } else if a.AReview? {
        ReviewingExact(s, a, t);
      } else if a.ACancel? || a.ARelease? {
        DiscardExactIff(s, a, t);
      } else if a.ATakeIn? {
        TakingInExact(s, a);
      } else {
        DeskworkExact(s, a);
      }
    }
  }

  lemma ReviewingExact(s: State, a: Action, t: State)
    requires Good(s) && Exact(s) && a.AReview? && Attempt(s, a) == Some(t)
    ensures Exact(t)
  {
    hide Attempt, Good, Exact, Gate, Dispatching, DraftSound;
    var d, p := ReviewingStep(s, a, t);
    DispatchingExactIff(s, a.r, d, p, t);
    forall id | id in s.stock.batches ensures CommitFitsBatch(s, a.r, d.lines, id) {
    }
  }

  lemma DeskworkExact(s: State, a: Action)
    requires Exact(s) && Commits(s, a)
    requires IsDeskwork(a)
    ensures Exact(Exec(s, a))
  {
    hide Attempt;
    var t := Exec(s, a);
    DeskworkShape(s, a, t);
    forall id | id in t.stock.batches ensures BatchExact(t, id) {
      assert BatchExact(s, id);
    }
  }

  // ---------------------------------------------------------------- runs

  ghost predicate DisciplinedRun(s: State, actions: seq<Action>)
    decreases |actions|
  {
    actions == [] ||
    var n := |actions| - 1;
    DisciplinedRun(s, actions[..n]) && Disciplined(Run(s, actions[..n]), actions[n])
  }

  /** The ledger is exact after every step of a run if and only if every step is disciplined. */
  lemma {:induction false} RunExactIff(s: State, actions: seq<Action>)
    requires Good(s) && Exact(s)
    ensures DisciplinedRun(s, actions) <==> forall n :: 0 <= n <= |actions| ==> Exact(Run(s, actions[..n]))
    decreases |actions|
  {
    hide Exec, Good, Exact, Disciplined;
    if actions == [] {
      assert actions[..0] == [];
    } else {
      var n := |actions| - 1;
      var front := actions[..n];
      RunExactIff(s, front);
      assert forall m :: 0 <= m <= n ==> front[..m] == actions[..m];
      assert actions[..n + 1] == actions;
      RunKeepsGood(s, front);
      if forall m :: 0 <= m <= n ==> Exact(Run(s, actions[..m])) {
        assert front[..n] == front;
        assert Exact(Run(s, actions[..n]));
        StepExactIff(Run(s, front), actions[n]);
        assert Exact(Run(s, actions[..n + 1])) <==> Disciplined(Run(s, front), actions[n]);
      }
    }
  }

  /** Exactness at the end of a disciplined run. */
  lemma RunExact(s: State, actions: seq<Action>)
    requires Good(s) && Exact(s) && DisciplinedRun(s, actions)
    ensures Exact(Run(s, actions))
  {
    RunExactIff(s, actions);
    assert actions[..|actions|] == actions;
  }

  /** The steps that act on the package of request `r`. */
  predicate Touches(a: Action, r: int) {
    match a
    case ASaveDraft(x, _, _, _, _) => x == r
    case ASubmit(x, _, _, _, _) => x == r
    case ASaveApproval(x, _, _, _) => x == r
    case AApprove(x, _, _, _) => x == r
    case ASend(x, _, _, _, _) => x == r
    case AReview(x) => x == r
    case ACancel(x) => x == r
    case ARelease(x) => x == r
    case _ => false
  }

  lemma UntouchedStep(s: State, a: Action, r: int)
    requires r in s.packages && !Touches(a, r)
    ensures r in Exec(s, a).packages && Exec(s, a).packages[r] == s.packages[r]
  {
    hide Reserve, Commit, Release, Prepared, Gate, Issued, ReceiveAll, SheetPasses, Strip;
  }

  lemma {:induction false} UntouchedRun(s: State, actions: seq<Action>, r: int)
    requires r in s.packages
    requires forall n :: 0 <= n < |actions| ==> !Touches(actions[n], r)
    ensures r in Run(s, actions).packages && Run(s, actions).packages[r] == s.packages[r]
    decreases |actions|
  {
    if actions == [] {
    } else {
      var n := |actions| - 1;
      UntouchedRun(s, actions[..n], r);
      UntouchedStep(Run(s, actions[..n]), actions[n], r);
    }
  }

  /** Taking `q` from a batch with no cut-off. */
  function Taken(b: Batch, q: Qty): Batch {
    b.(usable := b.usable - q, reserved := b.reserved - q)
  }

  lemma PendingLinesPass(s: State, r: int)
    requires Good(s) && Exact(s) && r in s.packages && !s.packages[r].dispatched
    ensures Commit(s.stock, s.packages[r].lines).Some?
  {
    var lines := s.packages[r].lines;
    assert PackageSound(s, r);
    forall k | k in lines ensures LinePasses(s.stock.batches, lines, k) {
      assert Found(s.stock.batches, k) && BatchSound(s.stock, k.batch);
      OwnIsReserved(s, r, k.batch);
    }
  }

  lemma PendingDeduction(s: State, r: int, id: int)
    requires Good(s) && Exact(s) && r in s.packages && !s.packages[r].dispatched
    requires id in s.stock.batches
    ensures var b := s.stock.batches[id];
            var q := QtyOf(s.packages[r].lines, KeyOf(id, b));
            Deducted(b, q) == Taken(b, q)
  {
    OwnIsReserved(s, r, id);
  }

  /** In an exact ledger the lines of a pending package can be committed, and each batch gives up exactly the
      line's quantity of both counters: the cut-off at zero changes nothing. */
  lemma PendingCommits(s: State, r: int)
    requires Good(s) && Exact(s) && r in s.packages && !s.packages[r].dispatched
    ensures var lines := s.packages[r].lines;
            && Commit(s.stock, lines).Some?
            && forall id :: id in s.stock.batches ==>
                 Commit(s.stock, lines).value.batches[id]
                 == Taken(s.stock.batches[id], QtyOf(lines, KeyOf(id, s.stock.batches[id])))
  {
    hide Good, Exact;
    PendingLinesPass(s, r);
    forall id | id in s.stock.batches
      ensures Commit(s.stock, s.packages[r].lines).value.batches[id]
              == Taken(s.stock.batches[id], QtyOf(s.packages[r].lines, KeyOf(id, s.stock.batches[id])))
    {
      PendingDeduction(s, r, id);
    }
  }

  /** A reservation is a promise: whatever disciplined run of other steps comes between, a pending package
      keeps its lines and they can be committed in full. */
  lemma ReservationIsPromise(s: State, r: int, actions: seq<Action>)
    requires Good(s) && Exact(s) && r in s.packages && !s.packages[r].dispatched
    requires DisciplinedRun(s, actions)
    requires forall n :: 0 <= n < |actions| ==> !Touches(actions[n], r)
    ensures var t := Run(s, actions);
            var lines := s.packages[r].lines;
            && Commit(t.stock, lines).Some?
            && forall id :: id in t.stock.batches ==>
                 Commit(t.stock, lines).value.batches[id]
                 == Taken(t.stock.batches[id], QtyOf(lines, KeyOf(id, t.stock.batches[id])))
  {
    RunKeepsGood(s, actions);
    RunExact(s, actions);
    UntouchedRun(s, actions, r);
    PendingCommits(Run(s, actions), r);
  }

  /** A claim within the reservation keeps both updates of a batch clear of the cut-off at zero. */
  lemma ClaimsNeverCutOff(b: Batch, was: Qty, now: Qty)
    requires 0 <= was <= b.reserved && 0 <= now
    ensures Shift(b, now - was).reserved == b.reserved + now - was
    ensures Freed(b, was).reserved == b.reserved - was
  {
  }

  lemma PendingClaim(s: State, r: int, id: int)
    requires Good(s) && Exact(s) && id in s.stock.batches
    requires r in s.packages ==> !s.packages[r].dispatched
    ensures 0 <= QtyOf(OldLines(s, r), KeyOf(id, s.stock.batches[id])) <= s.stock.batches[id].reserved
  {
    hide Good, Exact;
    OwnIsReserved(s, r, id);
  }

  /** In an exact ledger, saving over or releasing a pending package never hits the cut-off at zero either. */
  lemma SavesNeverCutOff(s: State, r: int, n: Lines, id: int)
    requires Good(s) && Exact(s) && id in s.stock.batches
    requires r in s.packages ==> !s.packages[r].dispatched
    requires forall k :: k in n ==> 0 <= n[k]
    ensures var b := s.stock.batches[id];
            && Shifted(s.stock.batches, OldLines(s, r), Positive(n))[id].reserved
               == b.reserved + Delta(OldLines(s, r), n, KeyOf(id, b))
            && Release(s.stock, OldLines(s, r)).batches[id].reserved
               == b.reserved - QtyOf(OldLines(s, r), KeyOf(id, b))
  {
    PendingClaim(s, r, id);
    hide Good, Exact, Positive, ReservedRestated, Shift, Freed, OldLines;
    var k := KeyOf(id, s.stock.batches[id]);
    PositiveQty(n, k);
    ClaimsNeverCutOff(s.stock.batches[id], QtyOf(OldLines(s, r), k), QtyOf(n, k));
  }

  // ---------------------------------------------------------------- saves of one package telescope

  predicate IsSaveOf(a: Action, r: int) {
    (a.ASaveDraft? || a.ASubmit? || a.ASaveApproval?) && a.r == r
  }

  lemma PendingIsCovered(s: State, r: int)
    requires Good(s) && Exact(s)
    requires r in s.packages ==> !s.packages[r].dispatched
    ensures Covered(s.stock, OldLines(s, r))
  {
    OldLinesSound(s, r);
    forall k | k in OldLines(s, r) ensures OldLines(s, r)[k] <= s.stock.batches[k.batch].reserved {
      assert Found(s.stock.batches, k);
      OwnIsReserved(s, r, k.batch);
    }
  }

  lemma SavingStep(s: State, a: Action, r: int)
    requires Good(s) && IsSaveOf(a, r) && Commits(s, a)
    requires r in s.packages ==> !s.packages[r].dispatched
    ensures var t := Exec(s, a);
            && Save(s.stock, OldLines(s, r), OldLines(t, r)) == Some(t.stock)
            && r in t.packages && !t.packages[r].dispatched
  {
    hide Attempt, Good, DraftSound;
    var d, v, p := ReservingStep(s, a, Exec(s, a));
  }

  lemma LinesStaySound(st: Stock, t: Stock, lines: Lines)
    requires SameShape(st.batches, t.batches) && LinesSound(t.batches, lines)
    ensures LinesSound(st.batches, lines)
  {
  }

  /** However often a package is saved, submitted and saved again (refused attempts included), every batch and
      every warehouse row ends as the one save from its first lines to its last would leave it. */
  lemma {:induction false} SavingRunTelescopes(s: State, r: int, actions: seq<Action>)
    requires Good(s) && Exact(s)
    requires r in s.packages ==> !s.packages[r].dispatched
    requires forall n :: 0 <= n < |actions| ==> IsSaveOf(actions[n], r)
    ensures var t := Run(s, actions);
            && (r in t.packages ==> !t.packages[r].dispatched)
            && SameShape(s.stock.batches, t.stock.batches)
            && Save(s.stock, OldLines(s, r), OldLines(t, r)) == Some(t.stock)
    decreases |actions|
  {
    PendingIsCovered(s, r);
    OldLinesSound(s, r);
    if actions == [] {
      DirectSave(s.stock, s.stock, OldLines(s, r), OldLines(s, r));
    } else {
      hide Exec, Good, Exact, Save, Covered, LinesSound, SameShape, OldLines;
      var n := |actions| - 1;
      SavingRunTelescopes(s, r, actions[..n]);
      RunKeepsGood(s, actions[..n]);
      OneMoreSave(s, Run(s, actions[..n]), actions[n], r);
    }
  }

  lemma OneMoreSave(s: State, m: State, a: Action, r: int)
    requires Good(s) && Covered(s.stock, OldLines(s, r))
    requires Good(m) && SameShape(s.stock.batches, m.stock.batches)
    requires r in m.packages ==> !m.packages[r].dispatched
    requires Save(s.stock, OldLines(s, r), OldLines(m, r)) == Some(m.stock)
    requires IsSaveOf(a, r)
    ensures var t := Exec(m, a);
            && (r in t.packages ==> !t.packages[r].dispatched)
            && SameShape(s.stock.batches, t.stock.batches)
            && Save(s.stock, OldLines(s, r), OldLines(t, r)) == Some(t.stock)
  {
    hide Attempt, Good, Save, Covered, LinesSound, Sound;
    if Commits(m, a) {
      var t := Exec(m, a);
      SavingStep(m, a, r);
      StepKeepsGood(m, a);
      GoodIsSound(s);
      OldLinesSound(m, r);
      OldLinesSound(t, r);
      StepKeepsShape(m, a);
      assert SameShape(s.stock.batches, t.stock.batches);
      LinesStaySound(s.stock, m.stock, OldLines(m, r));
      LinesStaySound(s.stock, t.stock, OldLines(t, r));
      TwoSaves(s.stock, m.stock, OldLines(s, r), OldLines(m, r), OldLines(t, r));
    }
  }
}
