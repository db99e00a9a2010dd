/** Where stock goes: over whole runs, usable stock plus dispatched quantities change only by what is taken in,
    and exactly the steps that rewrite an already dispatched package break the account. */
module Conservation {
  import opened Sums
  import opened Stock
  import opened Packaging
  import opened Intake
  import opened Workflow
  import opened Safety

  /** One column over all batches of an item, in all warehouses. */
  ghost function ItemColumn(batches: map<int, Batch>, item: int, c: Column): map<int, Qty> {
    map id | id in batches && batches[id].item == item :: Cell(batches[id], c)
  }

  ghost function ItemSum(batches: map<int, Batch>, item: int, c: Column): Qty {
    Sum(ItemColumn(batches, item, c))
  }

  /** What each dispatched package carried away of one item. */
  ghost function Loads(packages: map<int, Package>, item: int): map<int, Qty> {
    map r | r in packages && packages[r].dispatched :: LineTotal(packages[r].lines, item)
  }

  /** Usable stock on the shelves plus dispatched quantities. */
  ghost function Account(s: State, item: int): Qty {
    ItemSum(s.stock.batches, item, Usable) + Sum(Loads(s.packages, item))
  }

  /** The part of the account one package stands for. */
  ghost function Load(packages: map<int, Package>, r: int, item: int): Qty {
    if r in packages && packages[r].dispatched then LineTotal(packages[r].lines, item) else 0
  }

  lemma LoadUpdate(packages: map<int, Package>, r: int, p: Package, item: int)
    ensures Sum(Loads(packages[r := p], item))
            == Sum(Loads(packages, item)) - Load(packages, r, item) + Load(packages[r := p], r, item)
  {
    var before, after := Loads(packages, item), Loads(packages[r := p], item);
    if p.dispatched {
      assert after == before[r := LineTotal(p.lines, item)];
      SumUpdate(before, r, LineTotal(p.lines, item));
    } else if r in before {
      assert after == before - {r};
      SumRemove(before, r);
    } else {
      assert after == before;
    }
  }

  /** Reserving and releasing never change usable stock. */
  lemma UsableUntouched(a: map<int, Batch>, b: map<int, Batch>, item: int)
    requires SameShape(a, b)
    requires forall id :: id in a ==> a[id].usable == b[id].usable
    ensures ItemSum(a, item, Usable) == ItemSum(b, item, Usable)
  {
    var x, y := ItemColumn(a, item, Usable), ItemColumn(b, item, Usable);
    forall id ensures (id in x <==> id in y) && (id in x ==> x[id] == y[id]) {
      assert id in a <==> id in b;
      assert id in a ==> a[id].item == b[id].item && a[id].usable == b[id].usable;
    }
    assert x == y;
  }

  // ---------------------------------------------------------------- a commit takes exactly its lines

  /** What the lines take from each batch of an item. */
  ghost function Takings(batches: map<int, Batch>, lines: Lines, item: int): map<int, Qty> {
    map id | id in batches && batches[id].item == item :: QtyOf(lines, KeyOf(id, batches[id]))
  }

  /** Counted batch by batch or line by line, the lines of an item come to the same quantity. */
  lemma {:induction false} TakingsAreLines(batches: map<int, Batch>, lines: Lines, item: int)
    requires LinesSound(batches, lines)
    ensures Sum(Takings(batches, lines, item)) == LineTotal(lines, item)
    decreases lines.Keys
  {
    var takings := Takings(batches, lines, item);
    if lines == map[] {
      SumZero(takings);
      assert LinesOf(lines, item) == map[];
    } else {
      var k :| k in lines;
      var rest := lines - {k};
      TakingsAreLines(batches, rest, item);
      if k.item == item {
        assert takings == Takings(batches, rest, item)[k.batch := lines[k]];
        SumUpdate(Takings(batches, rest, item), k.batch, lines[k]);
        SumRemove(LinesOf(lines, item), k);
        assert LinesOf(lines, item) - {k} == LinesOf(rest, item);
      } else {
        assert takings == Takings(batches, rest, item);
        assert LinesOf(lines, item) == LinesOf(rest, item);
      }
    }
  }

  /** A successful commit takes from the shelves, per item, exactly what its lines hold. */
  lemma CommitTakesLines(st: Stock, lines: Lines, item: int)
    requires LinesSound(st.batches, lines)
    requires Commit(st, lines).Some?
    ensures ItemSum(Commit(st, lines).value.batches, item, Usable)
            == ItemSum(st.batches, item, Usable) - LineTotal(lines, item)
  {
    var now := Commit(st, lines).value.batches;
    TakingsAreLines(st.batches, lines, item);
    SumAdd(ItemColumn(now, item, Usable), Takings(st.batches, lines, item), ItemColumn(st.batches, item, Usable));
  }

  // ---------------------------------------------------------------- intake adds exactly the sheet

  ghost function GainOf(arrivals: seq<Arrival>, item: int, c: Column): Qty
    decreases |arrivals|
  {
    if arrivals == [] then 0
    else
      var n := |arrivals| - 1;
      GainOf(arrivals[..n], item, c) + if arrivals[n].item == item then Gain(arrivals[n], c) else 0
  }

  lemma ReceiveOneAdds(y: Yard, warehouse: int, a: Arrival, item: int, c: Column)
    requires forall id :: id in y.stock.batches ==> id < y.next
    ensures ItemSum(ReceiveOne(y, warehouse, a).stock.batches, item, c)
            == ItemSum(y.stock.batches, item, c) + if a.item == item then Gain(a, c) else 0
  {
    var z := ReceiveOne(y, warehouse, a);
    var before, after := ItemColumn(y.stock.batches, item, c), ItemColumn(z.stock.batches, item, c);
    if a.item == item {
      var id := y.next;
      if z.next == y.next {
        id := TopTarget(y, warehouse, a);
      }
      assert after == before[id := Cell(z.stock.batches[id], c)];
      SumUpdate(before, id, Cell(z.stock.batches[id], c));
    } else {
      assert after == before;
    }
  }

  lemma {:induction false} ReceiveAllAdds(y: Yard, warehouse: int, arrivals: seq<Arrival>, item: int, c: Column)
    requires forall id :: id in y.stock.batches ==> id < y.next
    ensures ItemSum(ReceiveAll(y, warehouse, arrivals).stock.batches, item, c)
            == ItemSum(y.stock.batches, item, c) + GainOf(arrivals, item, c)
    decreases |arrivals|
  {
    if arrivals == [] {
    } else {
      var n := |arrivals| - 1;
      ReceiveAllAdds(y, warehouse, arrivals[..n], item, c);
      ReceiveAllExtends(y, warehouse, arrivals[..n]);
      ReceiveOneAdds(ReceiveAll(y, warehouse, arrivals[..n]), warehouse, arrivals[n], item, c);
    }
  }

  /** With one arrival per item, an item gains exactly what its own arrival brings. */
  lemma {:induction false} GainOfOne(arrivals: seq<Arrival>, j: nat, c: Column)
    requires j < |arrivals|
    requires forall i, k :: 0 <= i < k < |arrivals| ==> arrivals[i].item != arrivals[k].item
    ensures GainOf(arrivals, arrivals[j].item, c) == Gain(arrivals[j], c)
    decreases |arrivals|
  {
    var n := |arrivals| - 1;
    if j < n {
      GainOfOne(arrivals[..n], j, c);
    } else {
      GainOfAbsent(arrivals[..n], arrivals[j].item, c);
    }
  }

  lemma {:induction false} GainOfAbsent(arrivals: seq<Arrival>, item: int, c: Column)
    requires forall i :: 0 <= i < |arrivals| ==> arrivals[i].item != item
    ensures GainOf(arrivals, item, c) == 0
    decreases |arrivals|
  {
    if arrivals == [] {
    } else {
      GainOfAbsent(arrivals[..|arrivals| - 1], item, c);
    }
  }

  // ---------------------------------------------------------------- the account of one step

  predicate Donated(items: seq<DonatedItem>, item: int) {
    exists j :: 0 <= j < |items| && items[j].item == item
  }

  /** The usable quantity of an item a step takes in: what the sheet says for it, if the donation holds it. */
  ghost function TakenIn(s: State, a: Action, item: int): Qty {
    if a.ATakeIn? && Commits(s, a) && Donated(s.donations[a.d].items, item) && item in a.sheet.entries
    then OnForm(a.sheet.entries[item], Usable) else 0
  }

  /** A sheet that passed brings, column by column, what it says for each donated item and nothing else. */
  lemma SheetGains(s: State, a: Action, item: int, c: Column)
    requires Good(s) && a.ATakeIn? && Commits(s, a)
    ensures var items := s.donations[a.d].items;
            var arrivals := Arrivals(s.catalog, a.sheet, items);
            && (Donated(items, item) ==> item in a.sheet.entries)
            && GainOf(arrivals, item, c) == if Donated(items, item) then OnForm(a.sheet.entries[item], c) else 0
  {
    var items := s.donations[a.d].items;
    SheetGivesSoundArrivals(s.stock.batches, s.catalog, a.today, a.sheet, items);
    hide Good, Attempt, SheetPasses, DonatedPasses;
    var arrivals := Arrivals(s.catalog, a.sheet, items);
    if j :| 0 <= j < |items| && items[j].item == item {
      assert arrivals[j].item == item && ReadFrom(arrivals[j], a.sheet.entries[item]);
      GainOfOne(arrivals, j, c);
    } else {
      GainOfAbsent(arrivals, item, c);
    }
  }

  /** The quantity by which a step rewrites what an already dispatched package is recorded to have carried. */
  ghost function Rewritten(s: State, a: Action, item: int): Qty {
    if !Commits(s, a) then 0 else
    match a
    case ASaveDraft(r, _, _, _, form) =>
      if r in s.packages && s.packages[r].dispatched
      then LineTotal(LinesAfter(s.stock.batches, s.requests[r].items.Keys, form), item) - Load(s.packages, r, item)
      else 0
    case ASend(r, _, _, _, _) => - Load(s.packages, r, item)
    case ACancel(r) => - Load(s.packages, r, item)
    case ARelease(r) => - Load(s.packages, r, item)
    case _ => 0
  }

  lemma ReservingAccount(s: State, r: int, d: Draft, v: int, p: Package, t: State, item: int)
    requires Reserving(s, r, d, v, p, t)
    ensures Account(t, item) == Account(s, item) + Load(t.packages, r, item) - Load(s.packages, r, item)
  {
    ReservingShape(s, r, d, v, p, t);
    hide Reserving, ItemSum, Loads;
    UsableUntouched(s.stock.batches, t.stock.batches, item);
    LoadUpdate(s.packages, r, p, item);
  }

  lemma DispatchingAccount(s: State, r: int, d: Draft, p: Package, t: State, item: int)
    requires Dispatching(s, r, d, p, t) && LinesSound(s.stock.batches, d.lines)
    ensures Account(t, item) == Account(s, item) - Load(s.packages, r, item)
  {
    CommitTakesLines(s.stock, d.lines, item);
    LoadUpdate(s.packages, r, p, item);
  }

  lemma DiscardingAccount(s: State, r: int, freed: Lines, t: State, item: int)
    requires Discarding(s, r, freed, t)
    ensures Account(t, item) == Account(s, item) - Load(s.packages, r, item)
  {
    DiscardingShape(s, r, freed, t);
    assert LinesOf(map[], item) == map[];
    assert LineTotal(map[], item) == 0;
    hide Discarding, ItemSum, Loads, LineTotal;
    UsableUntouched(s.stock.batches, t.stock.batches, item);
    LoadUpdate(s.packages, r, s.packages[r].(lines := map[]), item);
  }

  lemma SavingAccount(s: State, a: Action, t: State, item: int)
    requires Good(s) && Attempt(s, a) == Some(t) && (a.ASaveDraft? || a.ASubmit? || a.ASaveApproval?)
    ensures Account(t, item) == Account(s, item) + Rewritten(s, a, item)
  {
    hide Good, DraftSound, Account, FormPasses, LinesAfter;
    var d, v, p := ReservingStep(s, a, t);
    ReservingAccount(s, a.r, d, v, p, t, item);
  }

  lemma CommittingAccount(s: State, a: Action, t: State, item: int)
    requires Good(s) && Attempt(s, a) == Some(t) && (a.AApprove? || a.ASend? || a.AReview?)
    ensures Account(t, item) == Account(s, item) + Rewritten(s, a, item)
  {
    hide Attempt, Good, Account, Prepared, Dispatching, LinesSound, Gate;
    var d, p;
    if a.AApprove? {
      d, p := ApprovingStep(s, a, t);
    } else if a.AReview? {
      d, p := ReviewingStep(s, a, t);
    } else {
      d, p := SendingStep(s, a, t);
    }
    DispatchingAccount(s, a.r, d, p, t, item);
  }

  lemma DiscardAccount(s: State, a: Action, t: State, item: int)
    requires Good(s) && Attempt(s, a) == Some(t) && (a.ACancel? || a.ARelease?)
    ensures Account(t, item) == Account(s, item) + Rewritten(s, a, item)
  {
    hide Good, Account;
    DiscardingStep(s, a, t);
    if a.r in s.packages {
      DiscardingAccount(s, a.r, if a.ACancel? then map[] else s.packages[a.r].lines, t, item);
    }
  }

  lemma IntakeAccount(s: State, a: Action, t: State, item: int)
    requires Good(s) && Attempt(s, a) == Some(t) && a.ATakeIn?
    ensures Account(t, item) == Account(s, item) + TakenIn(s, a, item)
  {
    SheetGains(s, a, item, Usable);
    ReceiveAllAdds(Yard(s.stock, s.nextBatch), a.warehouse, Arrivals(s.catalog, a.sheet, s.donations[a.d].items), item, Usable);
  }

  lemma DeskworkAccount(s: State, a: Action, t: State, item: int)
    requires Attempt(s, a) == Some(t)
    requires IsDeskwork(a)
    ensures Account(t, item) == Account(s, item)
  {
    hide Attempt;
    DeskworkShape(s, a, t);
  }

  /** The account after any step whatever: what was taken in, and what was rewritten on dispatched packages. */
  lemma StepAccount(s: State, a: Action, item: int)
    requires Good(s)
    ensures Account(Exec(s, a), item) == Account(s, item) + TakenIn(s, a, item) + Rewritten(s, a, item)
  {
    hide Attempt, Good, Account;
    if Commits(s, a) {
      var t := Exec(s, a);
      if a.ASaveDraft? || a.ASubmit? || a.ASaveApproval? {
        SavingAccount(s, a, t, item);
      } else if a.AApprove? || a.ASend? || a.AReview? {
        CommittingAccount(s, a, t, item);
      } else if a.ACancel? || a.ARelease? {
        DiscardAccount(s, a, t, item);
      } else if a.ATakeIn? {
        IntakeAccount(s, a, t, item);
      } else {
        DeskworkAccount(s, a, t, item);
      }
    }
  }

  /** One step conserves an item's stock if and only if it rewrites nothing of it. */
  lemma StepConservesIff(s: State, a: Action, item: int)
    requires Good(s)
    ensures Account(Exec(s, a), item) == Account(s, item) + TakenIn(s, a, item) <==> Rewritten(s, a, item) == 0
  {
    hide Exec, Good, Account, TakenIn, Rewritten;
    StepAccount(s, a, item);
  }

  /** Only a step on an already dispatched package rewrites anything. */
  lemma PendingRewritesNothing(s: State, a: Action, item: int)
    requires a.ASaveDraft? || a.ASend? || a.ACancel? || a.ARelease?
    requires a.r in s.packages ==> !s.packages[a.r].dispatched
    ensures Rewritten(s, a, item) == 0
  {
    hide Attempt;
  }

  // ---------------------------------------------------------------- runs

  ghost function TakenInRun(s: State, actions: seq<Action>, item: int): Qty
    decreases |actions|
  {
    if actions == [] then 0 else
    var n := |actions| - 1;
    TakenInRun(s, actions[..n], item) + TakenIn(Run(s, actions[..n]), actions[n], item)
  }

  ghost function RewrittenRun(s: State, actions: seq<Action>, item: int): Qty
    decreases |actions|
  {
    if actions == [] then 0 else
    var n := |actions| - 1;
    RewrittenRun(s, actions[..n], item) + Rewritten(Run(s, actions[..n]), actions[n], item)
  }

  /** The account over any run. */
  lemma {:induction false} RunAccount(s: State, actions: seq<Action>, item: int)
    requires Good(s)
    ensures Account(Run(s, actions), item)
            == Account(s, item) + TakenInRun(s, actions, item) + RewrittenRun(s, actions, item)
    decreases |actions|
  {
    hide Exec, Good, Account, TakenIn, Rewritten;
    if actions == [] {
    } else {
      var n := |actions| - 1;
      RunAccount(s, actions[..n], item);
      RunKeepsGood(s, actions[..n]);
      StepAccount(Run(s, actions[..n]), actions[n], item);
    }
  }

  ghost predicate RewritesNothing(s: State, actions: seq<Action>, item: int) {
    forall n :: 0 <= n < |actions| ==> Rewritten(Run(s, actions[..n]), actions[n], item) == 0
  }

  /** The account of an item after the first `n` steps is the initial one and what they took in. */
  ghost predicate ConservedAt(s: State, actions: seq<Action>, item: int, n: nat)
    requires n <= |actions|
  {
    Account(Run(s, actions[..n]), item) == Account(s, item) + TakenInRun(s, actions[..n], item)
  }

  lemma ConservedPrefix(s: State, actions: seq<Action>, item: int, n: nat, m: nat)
    requires m <= n <= |actions|
    ensures ConservedAt(s, actions[..n], item, m) <==> ConservedAt(s, actions, item, m)
  {
    assert actions[..n][..m] == actions[..m];
  }

  lemma ConservedAtFirst(s: State, item: int)
    ensures RewritesNothing(s, [], item) && ConservedAt(s, [], item, 0)
  {
  }

  lemma ConservedNext(s: State, actions: seq<Action>, item: int, n: nat)
    requires Good(s) && n < |actions| && ConservedAt(s, actions, item, n)
    ensures ConservedAt(s, actions, item, n + 1) <==> Rewritten(Run(s, actions[..n]), actions[n], item) == 0
  {
    hide Exec, Good, Account, TakenIn, Rewritten;
    RunKeepsGood(s, actions[..n]);
    assert actions[..n + 1][..n] == actions[..n];
    StepConservesIff(Run(s, actions[..n]), actions[n], item);
  }

  lemma RewritesPrefix(s: State, actions: seq<Action>, item: int, n: nat)
    requires n < |actions|
    ensures RewritesNothing(s, actions[..n + 1], item)
            <==> RewritesNothing(s, actions[..n], item) && Rewritten(Run(s, actions[..n]), actions[n], item) == 0
  {
    hide Rewritten, Run;
    assert forall m :: 0 <= m <= n ==> actions[..n + 1][..m] == actions[..m];
    assert forall m :: 0 <= m <= n ==> actions[..n][..m] == actions[..m];
    assert RewritesNothing(s, actions[..n + 1], item)
           <==> forall m :: 0 <= m < n + 1 ==> Rewritten(Run(s, actions[..m]), actions[m], item) == 0;
    assert RewritesNothing(s, actions[..n], item)
           <==> forall m :: 0 <= m < n ==> Rewritten(Run(s, actions[..m]), actions[m], item) == 0;
  }

  /** Along a run an item's stock is conserved at every step if and only if no step rewrites any of it. */
  lemma {:induction false} RunConservesIff(s: State, actions: seq<Action>, item: int)
    requires Good(s)
    ensures RewritesNothing(s, actions, item) <==> forall n: nat :: n <= |actions| ==> ConservedAt(s, actions, item, n)
    decreases |actions|
  {
    hide *;
    if actions == [] {
      ConservedAtFirst(s, item);
    } else {
      var n := |actions| - 1;
      RunConservesIff(s, actions[..n], item);
      RewritesPrefix(s, actions, item, n);
      assert actions[..n + 1] == actions;
      forall m: nat | m <= n ensures ConservedAt(s, actions[..n], item, m) <==> ConservedAt(s, actions, item, m) {
        ConservedPrefix(s, actions, item, n, m);
      }
      if ConservedAt(s, actions, item, n) {
        ConservedNext(s, actions, item, n);
      }
    }
  }

  /** Every step that could touch a dispatched package acts on a package still pending. */
  ghost predicate PendingOnly(s: State, actions: seq<Action>) {
    forall n :: 0 <= n < |actions| ==> ActsOnPending(Run(s, actions[..n]), actions[n])
  }

  predicate ActsOnPending(s: State, a: Action) {
    (a.ASaveDraft? || a.ASend? || a.ACancel? || a.ARelease?) && a.r in s.packages ==> !s.packages[a.r].dispatched
  }

  /** Stock conservation: on every run that leaves dispatched packages alone, usable stock plus dispatched
      quantities equal the initial ones plus what was taken in. */
  lemma {:induction false} StockIsConserved(s: State, actions: seq<Action>, item: int)
    requires Good(s) && PendingOnly(s, actions)
    ensures Account(Run(s, actions), item) == Account(s, item) + TakenInRun(s, actions, item)
  {
    hide Good, Account;
    RunAccount(s, actions, item);
    NothingRewritten(s, actions, item);
  }

  lemma {:induction false} NothingRewritten(s: State, actions: seq<Action>, item: int)
    requires Good(s) && PendingOnly(s, actions)
    ensures RewrittenRun(s, actions, item) == 0
    decreases |actions|
  {
    hide Exec, Good, Attempt, Load;
    if actions == [] {
    } else {
      var n := |actions| - 1;
      var front := actions[..n];
      assert PendingOnly(s, front) by {
        forall m | 0 <= m < n ensures ActsOnPending(Run(s, front[..m]), front[m]) {
          assert front[..m] == actions[..m];
          assert ActsOnPending(Run(s, actions[..m]), actions[m]);
        }
      }
      NothingRewritten(s, front, item);
      RunKeepsGood(s, front);
      assert ActsOnPending(Run(s, front), actions[n]);
      if actions[n].ASaveDraft? || actions[n].ASend? || actions[n].ACancel? || actions[n].ARelease? {
        PendingRewritesNothing(Run(s, front), actions[n], item);
      }
    }
  }
}
