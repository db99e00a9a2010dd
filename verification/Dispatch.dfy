/** What a dispatch reports and what it takes off the shelves. */
module Dispatch {
  import Sums
  import opened Stock
  import opened ItemStatuses
  import opened Packaging
  import opened Workflow
  import opened Safety
  import opened Conservation

  /** What a transaction took of one item from all its batches. */
  ghost function Deduction(s: State, t: State, item: int): Qty {
    ItemSum(s.stock.batches, item, Usable) - ItemSum(t.stock.batches, item, Usable)
  }

  /** The report on an item tells the truth about what was taken. */
  ghost predicate ReportsTruth(s: State, t: State, r: int, item: int)
    requires r in t.requests && item in t.requests[r].items
  {
    t.requests[r].items[item].issue == Deduction(s, t, item)
  }

  lemma DispatchDeducts(s: State, r: int, d: Draft, p: Package, t: State, item: int)
    requires Dispatching(s, r, d, p, t) && LinesSound(s.stock.batches, d.lines)
    ensures Deduction(s, t, item) == LineTotal(d.lines, item)
  {
    CommitTakesLines(s.stock, d.lines, item);
  }

  /** On both gated paths every requested item's issue quantity is exactly what left its batches, agrees with
      its status and does not exceed the (unchanged) requested quantity. */
  lemma GatedDispatchIsTruthful(s: State, a: Action, item: int)
    requires Good(s) && (a.AApprove? || a.AReview?) && Commits(s, a)
    requires a.r in s.requests && item in s.requests[a.r].items
    ensures var t := Exec(s, a);
            && a.r in t.requests && item in t.requests[a.r].items
            && ReportsTruth(s, t, a.r, item)
            && Agrees(t.requests[a.r].items[item])
            && t.requests[a.r].items[item].request == s.requests[a.r].items[item].request
  {
    hide Attempt, Good, Agrees, LinesSound;
    var t := Exec(s, a);
    var d, p := GatedStep(s, a, t);
    DispatchDeducts(s, a.r, d, p, t, item);
    GateIsExact(d.items, d.lines, if a.AApprove? then AnyPositive(d.lines) else AnyIssued(d.items), item);
  }

  lemma GatedStep(s: State, a: Action, t: State) returns (d: Draft, p: Package)
    requires Good(s) && (a.AApprove? || a.AReview?) && Attempt(s, a) == Some(t)
    ensures Dispatching(s, a.r, d, p, t) && DraftSound(s, a.r, d)
    ensures Gate(d.items, d.lines, if a.AApprove? then AnyPositive(d.lines) else AnyIssued(d.items))
  {
    hide Attempt, Good, Gate, Dispatching, DraftSound;
    if a.AApprove? {
      d, p := ApprovingStep(s, a, t);
    } else {
      d, p := ReviewingStep(s, a, t);
    }
  }

  /** A gated dispatch that takes nothing is possible only when every item is marked unavailable. */
  lemma EmptyDispatchIsExcused(s: State, a: Action)
    requires Good(s) && (a.AApprove? || a.AReview?) && Commits(s, a)
    ensures var t := Exec(s, a);
            a.r in t.requests && (AnyIssued(t.requests[a.r].items) || AllUnavailable(t.requests[a.r].items))
  {
    hide Attempt, Good;
    var t := Exec(s, a);
    var d, p := GatedStep(s, a, t);
    if a.AApprove? && AnyPositive(d.lines) {
      var k :| k in d.lines && d.lines[k] > 0;
      LineCounts(d.lines, k);
      GateIsExact(d.items, d.lines, true, k.item);
      assert d.items[k.item].issue > 0;
    }
  }

  lemma LineCounts(lines: Lines, k: LineKey)
    requires k in lines && forall x :: x in lines ==> 0 <= lines[x]
    ensures lines[k] <= LineTotal(lines, k.item)
  {
    Sums.SumAtLeast(LinesOf(lines, k.item), k);
  }

  /** Nothing but requested items leaves the shelves. */
  lemma DispatchTakesOnlyRequested(s: State, a: Action, item: int)
    requires Good(s) && (a.AApprove? || a.ASend? || a.AReview?) && Commits(s, a)
    requires a.r in s.requests && item !in s.requests[a.r].items
    ensures Deduction(s, Exec(s, a), item) == 0
  {
    hide Attempt, Good;
    var t := Exec(s, a);
    var d, p := DispatchingStep(s, a, t);
    DispatchDeducts(s, a.r, d, p, t, item);
    assert LinesOf(d.lines, item) == map[];
  }

  /** On the ungated path the report is true for an item if and only if the status chosen for it fits the
      quantity picked for it. */
  lemma SendIsTruthfulIff(s: State, a: Action, item: int)
    requires Good(s) && a.ASend? && Commits(s, a)
    requires a.r in s.requests && item in s.requests[a.r].items
    ensures var t := Exec(s, a);
            var total := PickedTotal(a.form, item);
            var request := s.requests[a.r].items[item].request;
            && a.r in t.requests && item in t.requests[a.r].items
            && (ReportsTruth(s, t, a.r, item) <==> Truthful(ChosenStatus(a.form, item, total, request), total, request))
  {
    hide Attempt, Good;
    var t := Exec(s, a);
    var d, p := SendingStep(s, a, t);
    DispatchDeducts(s, a.r, d, p, t, item);
    var items := s.requests[a.r].items;
    PickedIsDispatched(s.stock.batches, a.today, s.statuses, OldLines(s, a.r), items, a.form, item);
    IssueIsTotalIffTruthful(ChosenStatus(a.form, item, PickedTotal(a.form, item), items[item].request),
                            PickedTotal(a.form, item), items[item].request);
  }

  lemma PickedIsDispatched(batches: map<int, Batch>, today: int, active: set<Status>, o: Lines,
                           items: map<int, ReqItem>, form: Form, item: int)
    requires FormPasses(batches, today, active, o, items, form, true) && item in items
    ensures LineTotal(LinesAfter(batches, items.Keys, form), item) == PickedTotal(form, item)
  {
    forall p | p in form.picks && p.item in items.Keys ensures p.batch in batches {
      assert PickPasses(batches, today, o, p, form.picks[p]);
    }
    ProcessedTotals(batches, items.Keys, form, item);
  }
}
