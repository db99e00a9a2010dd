/** Working through a submitted form: the loops of `_process_allocations`, the dispatch gate and the line totals. */
module FormService {
  import opened Sums
  import opened Stock
  import opened ItemStatuses
  import opened Allocation
  import opened Packaging
  import opened Workflow

  /** The lines with a positive quantity: what `get_current_batch_reservations` and the list of new allocations
      keep. */
  method PositiveLines(lines: Lines) returns (kept: Lines)
    ensures kept == Positive(lines)
  {
    kept := map[];
    var todo := lines.Keys;
    while todo != {}
      invariant todo <= lines.Keys
      invariant kept == map k | k in lines && k !in todo && lines[k] > 0 :: lines[k]
      decreases todo
    {
      var k := AnyOf(todo);
      todo := todo - {k};
      if lines[k] > 0 {
        kept := kept[k := lines[k]];
      }
    }
  }

  /** `SUM(column)` over the batches of one warehouse row. */
  method SumColumn(batches: map<int, Batch>, s: Slot, c: Column) returns (total: Qty)
    ensures total == ColumnSum(batches, s, c)
  {
    total := 0;
    var todo := batches.Keys;
    ghost var rest := ColumnOf(batches, s, c);
    while todo != {}
      invariant todo <= batches.Keys
      invariant rest == map id | id in todo && SlotOf(batches[id]) == s :: Cell(batches[id], c)
      invariant total + Sum(rest) == ColumnSum(batches, s, c)
      decreases todo
    {
      var id := AnyOf(todo);
      todo := todo - {id};
      if SlotOf(batches[id]) == s {
        SumRemove(rest, id);
        total := total + Cell(batches[id], c);
        rest := rest - {id};
      }
    }
  }

  /** One form field: the batch must exist and belong to the item (the line's foreign key), the quantity must not be
      negative (the line's sign check), and a positive one is validated beside what the package already holds. */
  method CheckPick(batches: map<int, Batch>, today: int, o: Lines, p: Pick, qty: Qty) returns (ok: bool)
    ensures ok <==> PickPasses(batches, today, o, p, qty)
  {
    if p.batch !in batches || batches[p.batch].item != p.item || qty < 0 {
      return false;
    }
    var key := LineKey(p.item, batches[p.batch].warehouse, p.batch);
    var current := if key in o then o[key] else 0;
    if qty > 0 {
      ok := ValidateAllocation(batches, today, p.batch, p.item, qty, current);
      return;
    }
    return true;
  }

  /** `compute_allowed_statuses` and `validate_status_transition`: only codes of the active status map are offered. */
  method ValidateTransition(active: set<Status>, current: Status, next: Status, total: Qty, request: Qty, activity: bool)
    returns (ok: bool)
    ensures ok <==> TransitionValid(active, current, next, total, request, activity)
  {
    if current == next {
      return true;
    }
    var offered := {Filled};
    if total == 0 {
      offered := {Unavailable, Denied, Waiting};
      if !activity {
        offered := offered + {Requested};
      }
    } else if total < request {
      offered := {PartlyFilled, LimitAllowed};
    }
    return next in offered && next in active;
  }

  /** The checks on one requested item once its picks are added up, and the status they lead to. */
  method CheckItem(active: set<Status>, o: Lines, form: Form, complete: bool, item: int, ri: ReqItem, total: Qty)
    returns (ok: bool, status: Status)
    ensures ok <==> ItemPasses(active, o, form, complete, item, ri, total)
    ensures ok ==> status == ChosenStatus(form, item, total, ri.request)
  {
    status := Requested;
    if total > ri.request {
      return false, status;
    }
    var allowsPartial := item in form.statuses
                         && form.statuses[item] in {Unavailable, Denied, Waiting, LimitAllowed, PartlyFilled};
    if complete && total < ri.request && !allowsPartial {
      return false, status;
    }
    if total != 0 {
      status := if total >= ri.request then Filled else PartlyFilled;
    }
    if item in form.statuses {
      status := form.statuses[item];
    }
    var activity := (exists k :: k in o && k.item == item) || (exists p :: p in form.picks && p.item == item);
    ok := ValidateTransition(active, ri.status, status, total, ri.request, activity);
  }

  /** The status and the issue quantity written for an item, so that they satisfy the table's quantity rule. */
  method WriteItem(ri: ReqItem, status: Status, total: Qty) returns (after: ReqItem)
    ensures after == ri.(status := status, issue := IssueFor(status, total, ri.request))
  {
    var issue := 0;
    if status == PartlyFilled || status == LimitAllowed {
      issue := Min(total, ri.request - 1);
    } else if status == Filled {
      issue := ri.request;
    }
    return ReqItem(ri.request, issue, status);
  }

  lemma PickedBatchExists(batches: map<int, Batch>, today: int, o: Lines, p: Pick, qty: Qty)
    requires PickPasses(batches, today, o, p, qty)
    ensures p.batch in batches
  {
  }

  /** The inner loop of `_process_allocations`: validate the form fields of one item and collect its lines. */
  method CollectPicks(batches: map<int, Batch>, today: int, o: Lines, form: Form, item: int)
    returns (ok: bool, total: Qty, picked: Lines)
    ensures ok <==> forall p :: p in form.picks && p.item == item ==> PickPasses(batches, today, o, p, form.picks[p])
    ensures ok ==> total == PickedTotal(form, item) && picked == LinesAfter(batches, {item}, form)
  {
    hide PickPasses;
    total, picked := 0, map[];
    var todo := set p | p in form.picks && p.item == item;
    ghost var all := todo;
    ghost var rest := PicksOf(form.picks, item);
    while todo != {}
      invariant todo <= all
      invariant forall p :: p in all - todo ==> PickPasses(batches, today, o, p, form.picks[p])
      invariant rest == map p | p in todo :: form.picks[p]
      invariant total + Sum(rest) == PickedTotal(form, item)
      invariant forall k :: k in picked <==> Pick(k.item, k.batch) in all - todo && k.batch in batches
                                             && LineFor(batches, Pick(k.item, k.batch)) == k
      invariant forall k :: k in picked ==> picked[k] == form.picks[Pick(k.item, k.batch)]
      decreases todo
    {
      var p := AnyOf(todo);
      var fits := CheckPick(batches, today, o, p, form.picks[p]);
      if !fits {
        return false, total, picked;
      }
      PickedBatchExists(batches, today, o, p, form.picks[p]);
      SumRemove(rest, p);
      total := total + form.picks[p];
      picked := picked[LineFor(batches, p) := form.picks[p]];
      todo, rest := todo - {p}, rest - {p};
    }
    forall k ensures (k in picked <==> k in LinesAfter(batches, {item}, form))
                     && (k in picked ==> picked[k] == LinesAfter(batches, {item}, form)[k]) {
      LinesAfterAt(batches, {item}, form, k);
    }
    return true, total, picked;
  }

  method HasPositive(lines: Lines) returns (any: bool)
    ensures any <==> AnyPositive(lines)
  {
    any := false;
    var todo := lines.Keys;
    while todo != {}
      invariant todo <= lines.Keys
      invariant any <==> exists k :: k in lines && k !in todo && lines[k] > 0
      decreases todo
    {
      var k := AnyOf(todo);
      any := any || lines[k] > 0;
      todo := todo - {k};
    }
  }

  /** The dispatch gate: per-item totals of the lines against the issue quantities. */
  method CheckGate(items: map<int, ReqItem>, lines: Lines, anyAllocated: bool) returns (ok: bool)
    ensures ok <==> Gate(items, lines, anyAllocated)
  {
    var allUnavailable := forall i :: i in items ==> items[i].status in {Unavailable, Denied, Waiting};
    if lines.Keys == {} && !allUnavailable {
      assert NoLines(lines);
      return false;
    }
    assert lines.Keys != {} ==> !NoLines(lines) by {
      if lines.Keys != {} {
        var k :| k in lines.Keys;
        assert k in lines;
      }
    }
    var totals := TotalsByItem(lines);
    var todo := items.Keys;
    while todo != {}
      invariant todo <= items.Keys
      invariant forall i :: i in items && i !in todo ==> !Mismatch(items[i].issue, LineTotal(lines, i))
      decreases todo
    {
      var i := AnyOf(todo);
      var total := if i in totals then totals[i] else 0;
      if items[i].issue > 0 && total == 0 {
        return false;
      }
      var difference := items[i].issue - total;
      if difference < 0 {
        difference := -difference;
      }
      if 10 * difference > 1 {
        return false;
      }
      todo := todo - {i};
    }
    return anyAllocated || allUnavailable;
  }

  method TotalsByItem(lines: Lines) returns (totals: map<int, Qty>)
    ensures forall i :: (if i in totals then totals[i] else 0) == LineTotal(lines, i)
  {
    totals := map[];
    var todo := lines.Keys;
    ghost var rest := lines;
    while todo != {}
      invariant todo <= lines.Keys && rest == map k | k in todo :: lines[k]
      invariant forall i :: (if i in totals then totals[i] else 0) + LineTotal(rest, i) == LineTotal(lines, i)
      decreases todo
    {
      var k := AnyOf(todo);
      ghost var before, was := totals, rest;
      if k.item !in totals {
        totals := totals[k.item := 0];
      }
      totals := totals[k.item := totals[k.item] + lines[k]];
      todo, rest := todo - {k}, rest - {k};
      forall i ensures (if i in totals then totals[i] else 0) + LineTotal(rest, i) == LineTotal(lines, i) {
        LineTotalRemove(was, k, i);
        assert (if i in before then before[i] else 0) + LineTotal(was, i) == LineTotal(lines, i);
      }
    }
    forall i ensures LineTotal(map[], i) == 0 {
      assert LinesOf(map[], i) == map[];
    }
  }

  lemma LineTotalRemove(lines: Lines, k: LineKey, i: int)
    requires k in lines
    ensures LineTotal(lines, i) == LineTotal(lines - {k}, i) + if k.item == i then lines[k] else 0
  {
    if k.item == i {
      SumRemove(LinesOf(lines, i), k);
      assert LinesOf(lines, i) - {k} == LinesOf(lines - {k}, i);
    } else {
      assert LinesOf(lines, i) == LinesOf(lines - {k}, i);
    }
  }

  /** The issue quantities an approval writes. */
  method IssueTotals(items: map<int, ReqItem>, lines: Lines) returns (issued: map<int, ReqItem>)
    ensures issued == Issued(items, lines)
  {
    var positive := PositiveLines(lines);
    var totals := TotalsByItem(positive);
    hide LineTotal, Positive;
    issued := items;
    var todo := items.Keys;
    while todo != {}
      invariant todo <= items.Keys
      invariant issued == map i | i in items ::
        if i in todo then items[i] else items[i].(issue := LineTotal(Positive(lines), i))
      decreases todo
    {
      var i := AnyOf(todo);
      issued := issued[i := issued[i].(issue := if i in totals then totals[i] else 0)];
      todo := todo - {i};
    }
  }

  /** The lines left after upserting `picked` into `o` and deleting every line that was not processed. */
  method DeleteOrphans(o: Lines, merged: Lines, processed: set<LineKey>) returns (lines: Lines)
    ensures lines == merged - (o.Keys - processed)
  {
    lines := merged;
    var todo := o.Keys;
    while todo != {}
      invariant todo <= o.Keys
      invariant lines == merged - (o.Keys - processed - todo)
      decreases todo
    {
      var k := AnyOf(todo);
      if k !in processed {
        lines := lines - {k};
      }
      todo := todo - {k};
    }
  }

  lemma LinesAfterMore(batches: map<int, Batch>, done: set<int>, item: int, form: Form)
    ensures LinesAfter(batches, done + {item}, form) == LinesAfter(batches, done, form) + LinesAfter(batches, {item}, form)
  {
    var a, b, c := LinesAfter(batches, done + {item}, form), LinesAfter(batches, done, form), LinesAfter(batches, {item}, form);
    forall k ensures (k in a <==> k in b + c) && (k in a ==> a[k] == (b + c)[k]) {
      LinesAfterAt(batches, done + {item}, form, k);
      LinesAfterAt(batches, done, form, k);
      LinesAfterAt(batches, {item}, form, k);
    }
  }

  lemma NoLinesYet(batches: map<int, Batch>, form: Form)
    ensures LinesAfter(batches, {}, form) == map[]
  {
    forall k ensures k !in LinesAfter(batches, {}, form) {
      LinesAfterAt(batches, {}, form, k);
    }
  }

  /** What holds once the items in `done` are processed. */
  ghost predicate ItemsDone(items: map<int, ReqItem>, form: Form, done: set<int>, after: map<int, ReqItem>) {
    after == map i | i in items :: if i in done then ItemAfter(form, i, items[i], PickedTotal(form, i)) else items[i]
  }

  ghost predicate LinesDone(batches: map<int, Batch>, o: Lines, form: Form, done: set<int>, merged: Lines, processed: set<LineKey>) {
    && merged == o + LinesAfter(batches, done, form)
    && processed == LinesAfter(batches, done, form).Keys
  }

  ghost predicate ChecksDone(batches: map<int, Batch>, today: int, active: set<Status>, o: Lines, items: map<int, ReqItem>,
                             form: Form, complete: bool, done: set<int>)
  {
    && (forall p :: p in form.picks && p.item in done ==> PickPasses(batches, today, o, p, form.picks[p]))
    && (forall i :: i in done && i in items ==> ItemPasses(active, o, form, complete, i, items[i], PickedTotal(form, i)))
  }

  /** The two checks on one item. */
  ghost predicate ItemChecks(batches: map<int, Batch>, today: int, active: set<Status>, o: Lines, items: map<int, ReqItem>,
                             form: Form, complete: bool, i: int)
    requires i in items
  {
    && (forall p :: p in form.picks && p.item == i ==> PickPasses(batches, today, o, p, form.picks[p]))
    && ItemPasses(active, o, form, complete, i, items[i], PickedTotal(form, i))
  }

  lemma CheckDone(batches: map<int, Batch>, today: int, active: set<Status>, o: Lines, items: map<int, ReqItem>,
                  form: Form, complete: bool, done: set<int>, i: int)
    requires ChecksDone(batches, today, active, o, items, form, complete, done)
    requires i in items && ItemChecks(batches, today, active, o, items, form, complete, i)
    ensures ChecksDone(batches, today, active, o, items, form, complete, done + {i})
  {
    hide PickPasses, ItemPasses, PickedTotal;
  }

  lemma CheckFails(batches: map<int, Batch>, today: int, active: set<Status>, o: Lines, items: map<int, ReqItem>,
                   form: Form, complete: bool, i: int)
    requires i in items && !ItemChecks(batches, today, active, o, items, form, complete, i)
    ensures !FormPasses(batches, today, active, o, items, form, complete)
  {
    hide PickPasses, ItemPasses, PickedTotal;
  }

  lemma ChecksComplete(batches: map<int, Batch>, today: int, active: set<Status>, o: Lines, items: map<int, ReqItem>,
                       form: Form, complete: bool)
    requires ChecksDone(batches, today, active, o, items, form, complete, items.Keys)
    ensures FormPasses(batches, today, active, o, items, form, complete)
  {
    hide PickPasses, ItemPasses, PickedTotal;
  }

  lemma ItemDone(items: map<int, ReqItem>, form: Form, done: set<int>, after: map<int, ReqItem>, i: int)
    requires ItemsDone(items, form, done, after) && i in items
    ensures ItemsDone(items, form, done + {i}, after[i := ItemAfter(form, i, items[i], PickedTotal(form, i))])
  {
    hide ItemAfter, PickedTotal;
  }

  lemma LineDone(batches: map<int, Batch>, o: Lines, form: Form, done: set<int>, merged: Lines, processed: set<LineKey>, i: int)
    requires LinesDone(batches, o, form, done, merged, processed)
    ensures var picked := LinesAfter(batches, {i}, form);
            LinesDone(batches, o, form, done + {i}, merged + picked, processed + picked.Keys)
  {
    LinesAfterMore(batches, done, i, form);
    hide LinesAfter;
    var x, y := LinesAfter(batches, done, form), LinesAfter(batches, {i}, form);
    assert o + x + y == o + (x + y);
  }

  /** The outer loop of `_process_allocations`: check each requested item, write its status and issue quantity, and
      upsert its lines. */
  method ProcessItems(batches: map<int, Batch>, today: int, active: set<Status>, o: Lines, items: map<int, ReqItem>,
                      form: Form, complete: bool)
    returns (ok: bool, after: map<int, ReqItem>, merged: Lines, processed: set<LineKey>)
    ensures ok <==> FormPasses(batches, today, active, o, items, form, complete)
    ensures ok ==> after == ItemsAfter(items, form)
    ensures ok ==> merged == o + LinesAfter(batches, items.Keys, form)
    ensures ok ==> processed == LinesAfter(batches, items.Keys, form).Keys
  {
    hide PickPasses, ItemPasses, LinesAfter, PickedTotal, ItemAfter, ItemsAfter, FormPasses, ItemsDone, LinesDone, ChecksDone;
    after, merged, processed := items, o, {};
    var todo := items.Keys;
    ghost var done: set<int> := {};
    NothingDone(batches, o, items, form);
    while todo != {}
      invariant todo <= items.Keys && done == items.Keys - todo
      invariant ItemsDone(items, form, done, after)
      invariant LinesDone(batches, o, form, done, merged, processed)
      invariant ChecksDone(batches, today, active, o, items, form, complete, done)
      decreases todo
    {
      var i := AnyOf(todo);
      var fits, total, picked := CollectPicks(batches, today, o, form, i);
      var passes, status := CheckItem(active, o, form, complete, i, items[i], total);
      if !fits || !passes {
        CheckFails(batches, today, active, o, items, form, complete, i);
        return false, after, merged, processed;
      }
      CheckDone(batches, today, active, o, items, form, complete, done, i);
      ItemDone(items, form, done, after, i);
      LineDone(batches, o, form, done, merged, processed, i);
      var written := WriteItem(items[i], status, total);
      WrittenIsAfter(form, i, items[i], total);
      after := after[i := written];
      merged := merged + picked;
      processed := processed + picked.Keys;
      todo, done := todo - {i}, done + {i};
    }
    assert done == items.Keys;
    ChecksComplete(batches, today, active, o, items, form, complete);
    AllDone(batches, o, items, form, after, merged, processed);
    return true, after, merged, processed;
  }

  lemma WrittenIsAfter(form: Form, i: int, ri: ReqItem, total: Qty)
    ensures ItemAfter(form, i, ri, total)
            == ri.(status := ChosenStatus(form, i, total, ri.request),
                   issue := IssueFor(ChosenStatus(form, i, total, ri.request), total, ri.request))
  {
  }

  lemma NothingDone(batches: map<int, Batch>, o: Lines, items: map<int, ReqItem>, form: Form)
    ensures ItemsDone(items, form, {}, items) && LinesDone(batches, o, form, {}, o, {})
    ensures forall today, active, complete :: ChecksDone(batches, today, active, o, items, form, complete, {})
  {
    NoLinesYet(batches, form);
    hide LinesAfter;
    assert o + map[] == o;
  }

  lemma AllDone(batches: map<int, Batch>, o: Lines, items: map<int, ReqItem>, form: Form,
                after: map<int, ReqItem>, merged: Lines, processed: set<LineKey>)
    requires ItemsDone(items, form, items.Keys, after) && LinesDone(batches, o, form, items.Keys, merged, processed)
    ensures after == ItemsAfter(items, form)
    ensures merged == o + LinesAfter(batches, items.Keys, form)
    ensures processed == LinesAfter(batches, items.Keys, form).Keys
  {
    hide LinesAfter, PickedTotal, ItemAfter;
  }

  /** Deleting the lines that were not processed leaves exactly the processed ones. */
  lemma OrphansGone(o: Lines, n: Lines)
    ensures (o + n) - (o.Keys - n.Keys) == n
  {
  }
}
