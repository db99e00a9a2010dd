/** Turning a submitted packaging form into request items and package lines, and the dispatch gate
    (`_process_allocations` and the checks before a commit in app/features/packaging.py). */
module Packaging {
  import opened Sums
  import opened Stock
  import opened ItemStatuses
  import opened Allocation

  /** A form field `batch_allocation_{item}_{batch}`. */
  datatype Pick = Pick(item: int, batch: int)

  datatype Form = Form(picks: map<Pick, Qty>, statuses: map<int, Status>)

  function LineFor(batches: map<int, Batch>, p: Pick): LineKey
    requires p.batch in batches
  {
    LineKey(p.item, batches[p.batch].warehouse, p.batch)
  }

  /** One form field is accepted: the batch exists, the line's foreign key and sign check hold, and a
      positive quantity is still available once the package's own share is given back. */
  predicate PickPasses(batches: map<int, Batch>, today: int, o: Lines, p: Pick, q: Qty) {
    && p.batch in batches
    && batches[p.batch].item == p.item
    && 0 <= q
    && (q > 0 ==> AllocationValid(batches, today, p.batch, p.item, q, QtyOf(o, LineFor(batches, p))))
  }

  ghost function PicksOf(picks: map<Pick, Qty>, item: int): map<Pick, Qty> {
    map p | p in picks && p.item == item :: picks[p]
  }

  /** The total the form allocates to one item. */
  ghost function PickedTotal(form: Form, item: int): Qty {
    Sum(PicksOf(form.picks, item))
  }

  function ChosenStatus(form: Form, item: int, total: Qty, request: Qty): Status {
    if item in form.statuses then form.statuses[item] else CalculatedStatus(total, request)
  }

  predicate HasActivity(o: Lines, form: Form, item: int) {
    (exists k :: k in o && k.item == item) || (exists p :: p in form.picks && p.item == item)
  }

  /** The checks made on one requested item once its total is known. */
  predicate ItemPasses(active: set<Status>, o: Lines, form: Form, complete: bool, item: int, ri: ReqItem, total: Qty) {
    && WithinLimit(total, ri.request)
    && !(complete && total < ri.request && !(item in form.statuses && AllowsPartial(form.statuses[item])))
    && TransitionValid(active, ri.status, ChosenStatus(form, item, total, ri.request), total, ri.request,
                       HasActivity(o, form, item))
  }

  function ItemAfter(form: Form, item: int, ri: ReqItem, total: Qty): ReqItem {
    var status := ChosenStatus(form, item, total, ri.request);
    ri.(status := status, issue := IssueFor(status, total, ri.request))
  }

  datatype Draft = Draft(items: map<int, ReqItem>, lines: Lines)

  ghost predicate FormPasses(batches: map<int, Batch>, today: int, active: set<Status>, o: Lines,
                             items: map<int, ReqItem>, form: Form, complete: bool)
  {
    && (forall p :: p in form.picks && p.item in items ==> PickPasses(batches, today, o, p, form.picks[p]))
    && (forall i :: i in items ==> ItemPasses(active, o, form, complete, i, items[i], PickedTotal(form, i)))
  }

  /** The lines the form leaves: updated, inserted, and every other old line deleted. */
  function LinesAfter(batches: map<int, Batch>, items: set<int>, form: Form): Lines {
    map p | p in form.picks && p.item in items && p.batch in batches :: LineFor(batches, p) := form.picks[p]
  }

  ghost function ItemsAfter(items: map<int, ReqItem>, form: Form): map<int, ReqItem> {
    map i | i in items :: ItemAfter(form, i, items[i], PickedTotal(form, i))
  }

  /** `_process_allocations` for the items of one request whose package holds the lines `o`. */
  ghost function Process(batches: map<int, Batch>, today: int, active: set<Status>, o: Lines,
                         items: map<int, ReqItem>, form: Form, complete: bool): (d: Option<Draft>)
  {
    if FormPasses(batches, today, active, o, items, form, complete)
    then Some(Draft(ItemsAfter(items, form), LinesAfter(batches, items.Keys, form)))
    else None
  }

  /** The quantity a set of lines holds of one item. */
  ghost function LinesOf(lines: Lines, item: int): Lines {
    map k | k in lines && k.item == item :: lines[k]
  }

  ghost function LineTotal(lines: Lines, item: int): Qty {
    Sum(LinesOf(lines, item))
  }

  predicate AllUnavailable(items: map<int, ReqItem>) {
    forall i :: i in items ==> IsUnavailable(items[i].status)
  }

  function Abs(x: int): int { if x < 0 then -x else x }

  /** The comparison `abs(issue - total) > 0.001` on quantities that count fractions of `1 / scale`. */
  predicate MismatchAt(scale: int, issue: int, total: int) {
    (issue > 0 && total == 0) || 1000 * Abs(issue - total) > scale
  }

  predicate Mismatch(issue: Qty, total: Qty) {
    MismatchAt(100, issue, total)
  }

  predicate NoLines(lines: Lines) {
    forall k :: k !in lines
  }

  predicate AnyPositive(lines: Lines) {
    exists k :: k in lines && lines[k] > 0
  }

  /** The gate in front of an approved dispatch. */
  ghost predicate Gate(items: map<int, ReqItem>, lines: Lines, anyAllocated: bool) {
    && (NoLines(lines) ==> AllUnavailable(items))
    && (forall i :: i in items ==> !Mismatch(items[i].issue, LineTotal(lines, i)))
    && (anyAllocated || AllUnavailable(items))
  }

  /** Every line of the map names an existing batch and holds no negative quantity. */
  ghost predicate LinesSound(batches: map<int, Batch>, lines: Lines) {
    forall k :: k in lines ==> Found(batches, k) && 0 <= lines[k]
  }

  /** A line is left exactly for each accepted field of a requested item, with the field's quantity. */
  lemma LinesAfterAt(batches: map<int, Batch>, items: set<int>, form: Form, k: LineKey)
    ensures var p := Pick(k.item, k.batch);
            var lines := LinesAfter(batches, items, form);
            && (k in lines <==> p in form.picks && k.item in items && k.batch in batches && LineFor(batches, p) == k)
            && (k in lines ==> lines[k] == form.picks[p])
  {
    var lines := LinesAfter(batches, items, form);
    if k in lines {
      var p :| p in form.picks && p.item in items && p.batch in batches && LineFor(batches, p) == k;
      assert p == Pick(k.item, k.batch);
    }
  }

  /** An accepted form leaves only sound lines. */
  lemma ProcessedLinesSound(batches: map<int, Batch>, today: int, active: set<Status>, o: Lines,
                            items: map<int, ReqItem>, form: Form, complete: bool)
    requires FormPasses(batches, today, active, o, items, form, complete)
    ensures LinesSound(batches, LinesAfter(batches, items.Keys, form))
    ensures forall k :: k in LinesAfter(batches, items.Keys, form) ==> k.item in items
  {
    var lines := LinesAfter(batches, items.Keys, form);
    forall k | k in lines ensures Found(batches, k) && 0 <= lines[k] && k.item in items {
      var p :| p in form.picks && p.item in items && p.batch in batches && LineFor(batches, p) == k;
      assert PickPasses(batches, today, o, p, form.picks[p]);
    }
  }

  /** The lines of an accepted form hold, per item, exactly what the form picked. */
  lemma ProcessedTotals(batches: map<int, Batch>, items: set<int>, form: Form, item: int)
    requires forall p :: p in form.picks && p.item in items ==> p.batch in batches
    requires item in items
    ensures LineTotal(LinesAfter(batches, items, form), item) == PickedTotal(form, item)
  {
    ReindexPicks(batches, PicksOf(form.picks, item), LinesOf(LinesAfter(batches, items, form), item));
  }

  lemma {:induction false} ReindexPicks(batches: map<int, Batch>, picks: map<Pick, Qty>, lines: Lines)
    requires forall p :: p in picks ==> p.batch in batches && LineFor(batches, p) in lines
                                        && lines[LineFor(batches, p)] == picks[p]
    requires forall k :: k in lines ==> Pick(k.item, k.batch) in picks && k.batch in batches
                                        && LineFor(batches, Pick(k.item, k.batch)) == k
    ensures Sum(picks) == Sum(lines)
    decreases picks.Keys
  {
    if picks == map[] {
      assert lines == map[];
    } else {
      var p :| p in picks;
      var k := LineFor(batches, p);
      SumRemove(picks, p);
      SumRemove(lines, k);
      ReindexPicks(batches, picks - {p}, lines - {k});
    }
  }

  /** An accepted form leaves every item in agreement with the quantity rule of its status. */
  lemma ProcessedItemsAgree(batches: map<int, Batch>, today: int, active: set<Status>, o: Lines,
                            items: map<int, ReqItem>, form: Form, complete: bool, i: int)
    requires FormPasses(batches, today, active, o, items, form, complete)
    requires i in items && Agrees(items[i])
    ensures Agrees(ItemsAfter(items, form)[i])
    ensures 0 <= PickedTotal(form, i) <= items[i].request
  {
    var picks := PicksOf(form.picks, i);
    forall p | p in picks ensures 0 <= picks[p] {
      assert PickPasses(batches, today, o, p, form.picks[p]);
    }
    SumNonNegative(picks);
    assert ItemPasses(active, o, form, complete, i, items[i], PickedTotal(form, i));
  }

  /** The tolerance lets no difference pass if and only if quantities are coarser than thousandths. */
  lemma ToleranceIsExactIff(scale: int)
    requires 0 < scale
    ensures (forall issue, total :: !MismatchAt(scale, issue, total) ==> issue == total) <==> scale < 1000
  {
    if scale >= 1000 {
      assert !MismatchAt(scale, 2, 1);
    }
  }

  /** On the four decimals of the package lines, 1.0001 units pass for 1.0000. */
  lemma FourDecimalsPass()
    ensures !MismatchAt(10000, 10001, 10000)
  {
  }

  /** The gate lets a set of items through only if each issue quantity is exactly the quantity in the lines. */
  lemma GateIsExact(items: map<int, ReqItem>, lines: Lines, anyAllocated: bool, i: int)
    requires Gate(items, lines, anyAllocated) && i in items
    ensures items[i].issue == LineTotal(lines, i)
  {
    assert !Mismatch(items[i].issue, LineTotal(lines, i));
  }
}
