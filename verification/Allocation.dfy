/** Batch selection (app/services/batch_allocation_service.py): validation, the sort orders, and automatic
    allocation. */
module Allocation {
  import opened Sums
  import opened Stock
  import opened Filling

  /** `validate_batch_allocation`: the package's own current quantity counts as available again. */
  predicate AllocationValid(batches: map<int, Batch>, today: int, id: int, item: int, qty: Qty, current: Qty) {
    && id in batches
    && var b := batches[id];
    && b.item == item
    && b.active
    && (b.expiry.Some? ==> b.expiry.value >= today)
    && qty <= b.usable - (b.reserved - current)
    && qty > 0
  }

  /** `validate_batch_allocation`, check by check. */
  method ValidateAllocation(batches: map<int, Batch>, today: int, id: int, item: int, qty: Qty, current: Qty)
    returns (ok: bool)
    ensures ok <==> AllocationValid(batches, today, id, item, qty, current)
  {
    if id !in batches {
      return false;
    }
    var batch := batches[id];
    if batch.item != item {
      return false;
    }
    if !batch.active {
      return false;
    }
    if batch.expiry.Some? && batch.expiry.value < today {
      return false;
    }
    var available := batch.usable - (batch.reserved - current);
    if available < qty {
      return false;
    }
    return qty > 0;
  }

  // ---------------------------------------------------------------- sorting

  /** A batch record with its identity; dates are ordinals. */
  datatype Held = Held(id: int, batch: Batch)

  datatype Issuance = FEFO | FIFO | LIFO

  datatype Item = Item(canExpire: bool, issuance: Issuance)

  const DATE_MIN := 1
  const DATE_MAX := 3652059

  /** The five sort orders: two for the drawer, three for automatic allocation. */
  datatype Order = DrawerByExpiry | DrawerByDate | ByExpiry | NewestFirst | OldestFirst

  function DateOr(d: Option<int>, default: int): int {
    if d.Some? then d.value else default
  }

  function Available(h: Held): Qty {
    h.batch.usable - h.batch.reserved
  }

  function SortKey(order: Order, h: Held): seq<int> {
    var b := h.batch;
    var expiry := [if b.expiry.None? then 1 else 0, DateOr(b.expiry, DATE_MAX), DateOr(b.batchDate, DATE_MAX)];
    match order
    case DrawerByExpiry => expiry
    case DrawerByDate => [DateOr(b.batchDate, DATE_MIN)]
    case ByExpiry => expiry + [-Available(h)]
    case NewestFirst => [-DateOr(b.batchDate, 0), -Available(h)]
    case OldestFirst => [DateOr(b.batchDate, DATE_MIN), -Available(h)]
  }

  /** Tuples compare from the left. */
  predicate LexLeq(a: seq<int>, b: seq<int>) {
    a == [] || (b != [] && (a[0] < b[0] || (a[0] == b[0] && LexLeq(a[1..], b[1..]))))
  }

  lemma {:induction false} LexTotal(a: seq<int>, b: seq<int>)
    ensures LexLeq(a, b) || LexLeq(b, a)
    decreases |a|
  {
    if a != [] && b != [] && a[0] == b[0] {
      LexTotal(a[1..], b[1..]);
    }
  }

  lemma {:induction false} LexTransitive(a: seq<int>, b: seq<int>, c: seq<int>)
    requires LexLeq(a, b) && LexLeq(b, c)
    ensures LexLeq(a, c)
    decreases |a|
  {
    if a != [] && a[0] == b[0] == c[0] {
      LexTransitive(a[1..], b[1..], c[1..]);
    }
  }

  predicate Before(order: Order, x: Held, y: Held) {
    LexLeq(SortKey(order, x), SortKey(order, y))
  }

  lemma BeforeTransitive(order: Order, x: Held, y: Held, z: Held)
    requires Before(order, x, y) && Before(order, y, z)
    ensures Before(order, x, z)
  {
    LexTransitive(SortKey(order, x), SortKey(order, y), SortKey(order, z));
  }

  lemma BeforeTotal(order: Order, x: Held, y: Held)
    ensures Before(order, x, y) || Before(order, y, x)
  {
    LexTotal(SortKey(order, x), SortKey(order, y));
  }

  function Insert(order: Order, h: Held, list: seq<Held>): seq<Held> {
    if list == [] || Before(order, h, list[0]) then [h] + list
    else [list[0]] + Insert(order, h, list[1..])
  }

  /** A stable sort, as Python's `sorted` is. */
  function Sort(order: Order, list: seq<Held>): seq<Held> {
    if list == [] then [] else Insert(order, list[0], Sort(order, list[1..]))
  }

  predicate Sorted(order: Order, list: seq<Held>) {
    forall i, j :: 0 <= i < j < |list| ==> Before(order, list[i], list[j])
  }

  /** Inserting adds the batch and nothing else. */
  lemma {:induction false} InsertAdds(order: Order, h: Held, list: seq<Held>)
    ensures multiset(Insert(order, h, list)) == multiset{h} + multiset(list)
    decreases |list|
  {
    hide Before;
    if list != [] && !Before(order, h, list[0]) {
      InsertAdds(order, h, list[1..]);
      assert list == [list[0]] + list[1..];
    }
  }

  lemma {:induction false} InsertSorts(order: Order, h: Held, list: seq<Held>)
    requires Sorted(order, list)
    ensures Sorted(order, Insert(order, h, list))
    decreases |list|
  {
    hide Before;
    if list == [] || Before(order, h, list[0]) {
      forall j | 0 <= j < |list| ensures Before(order, h, list[j]) {
        if j > 0 {
          BeforeTransitive(order, h, list[0], list[j]);
        }
      }
    } else {
      var rest := Insert(order, h, list[1..]);
      InsertSorts(order, h, list[1..]);
      BeforeTotal(order, h, list[0]);
      forall j | 0 <= j < |rest| ensures Before(order, list[0], rest[j]) {
        InsertStems(order, h, list[1..], j);
      }
    }
  }

  lemma InsertStems(order: Order, h: Held, list: seq<Held>, j: nat)
    requires j < |Insert(order, h, list)|
    ensures Insert(order, h, list)[j] == h || Insert(order, h, list)[j] in list
  {
    hide Before;
    InsertAdds(order, h, list);
    assert Insert(order, h, list)[j] in multiset(Insert(order, h, list));
  }

  /** Sorting orders the batches by their key and loses or adds none. */
  lemma {:induction false} SortSorts(order: Order, list: seq<Held>)
    ensures Sorted(order, Sort(order, list))
    ensures multiset(Sort(order, list)) == multiset(list)
    decreases |list|
  {
    hide Before;
    if list == [] {
    } else {
      SortSorts(order, list[1..]);
      InsertSorts(order, list[0], Sort(order, list[1..]));
      InsertAdds(order, list[0], Sort(order, list[1..]));
      assert list == [list[0]] + list[1..];
    }
  }

  /** The batches of a list that share one key, in list order. */
  function Tied(order: Order, list: seq<Held>, key: seq<int>): seq<Held> {
    if list == [] then []
    else (if SortKey(order, list[0]) == key then [list[0]] else []) + Tied(order, list[1..], key)
  }

  lemma TiedCons(order: Order, h: Held, list: seq<Held>, key: seq<int>)
    ensures Tied(order, [h] + list, key) == (if SortKey(order, h) == key then [h] else []) + Tied(order, list, key)
  {
    assert ([h] + list)[1..] == list;
  }

  lemma {:induction false} InsertIsStable(order: Order, h: Held, list: seq<Held>, key: seq<int>)
    ensures Tied(order, Insert(order, h, list), key) == Tied(order, [h] + list, key)
    decreases |list|
  {
    hide SortKey, LexLeq, Tied;
    if list != [] && !Before(order, h, list[0]) {
      var rest := Insert(order, h, list[1..]);
      InsertIsStable(order, h, list[1..], key);
      TiedCons(order, list[0], rest, key);
      TiedCons(order, list[0], list[1..], key);
      TiedCons(order, h, list[1..], key);
      TiedCons(order, h, list, key);
      assert [list[0]] + list[1..] == list;
      LexReflexive(SortKey(order, h));
    }
  }

  lemma {:induction false} LexReflexive(a: seq<int>)
    ensures LexLeq(a, a)
    decreases |a|
  {
    if a == [] {
    } else {
      LexReflexive(a[1..]);
    }
  }

  /** Batches with equal keys keep the order in which the query delivered them. */
  lemma {:induction false} SortIsStable(order: Order, list: seq<Held>, key: seq<int>)
    ensures Tied(order, Sort(order, list), key) == Tied(order, list, key)
    decreases |list|
  {
    if list == [] {
    } else {
      var rest := Sort(order, list[1..]);
      SortIsStable(order, list[1..], key);
      InsertIsStable(order, list[0], rest, key);
      assert ([list[0]] + rest)[1..] == rest;
    }
  }

  /** Dates are ordinals of the calendar. */
  predicate Dated(d: Option<int>) {
    d.Some? ==> DATE_MIN <= d.value <= DATE_MAX
  }

  /** One batch expires no later than another; no date means never. */
  predicate ExpiresBy(x: Held, y: Held) {
    y.batch.expiry.None? || (x.batch.expiry.Some? && x.batch.expiry.value <= y.batch.expiry.value)
  }

  /** One batch is dated no later than another; no date counts as the first day of the calendar. */
  predicate NoYounger(x: Held, y: Held) {
    x.batch.batchDate.None? || x.batch.batchDate.value <= if y.batch.batchDate.Some? then y.batch.batchDate.value else 1
  }

  /** The same order when no date counts as the last day of the calendar. */
  predicate NoYoungerDatedFirst(x: Held, y: Held) {
    y.batch.batchDate.None? || y.batch.batchDate.value >= if x.batch.batchDate.Some? then x.batch.batchDate.value else 3652059
  }

  /** One batch is dated no earlier than another; batches without a date come last. */
  predicate NoOlder(x: Held, y: Held) {
    y.batch.batchDate.None? || (x.batch.batchDate.Some? && x.batch.batchDate.value >= y.batch.batchDate.value)
  }

  /** What is left of two batches' stock once reservations are taken off: the larger remainder goes first. */
  predicate HasMore(x: Held, y: Held) {
    x.batch.usable - x.batch.reserved >= y.batch.usable - y.batch.reserved
  }

  /** What standing before another batch means in each of the five orders, down to the last tie. */
  lemma BeforeMeans(order: Order, x: Held, y: Held)
    requires Dated(x.batch.batchDate) && Dated(y.batch.batchDate)
    ensures Before(order, x, y) <==>
            match order
            case DrawerByExpiry => ExpiresBy(x, y) && (ExpiresBy(y, x) ==> NoYoungerDatedFirst(x, y))
            case DrawerByDate => NoYounger(x, y)
            case ByExpiry =>
              && ExpiresBy(x, y)
              && (ExpiresBy(y, x) ==> NoYoungerDatedFirst(x, y) && (NoYoungerDatedFirst(y, x) ==> HasMore(x, y)))
            case NewestFirst => NoOlder(x, y) && (NoOlder(y, x) ==> HasMore(x, y))
            case OldestFirst => NoYounger(x, y) && (NoYounger(y, x) ==> HasMore(x, y))
  {
    LexUnrolled(SortKey(order, x), SortKey(order, y));
  }

  /** The comparison of equally long tuples, place by place. */
  lemma LexUnrolled(a: seq<int>, b: seq<int>)
    requires |a| == |b| <= 4
    ensures LexLeq(a, b) <==>
            || |a| == 0
            || a[0] < b[0]
            || (a[0] == b[0] && (|a| == 1
                || a[1] < b[1]
                || (a[1] == b[1] && (|a| == 2
                    || a[2] < b[2]
                    || (a[2] == b[2] && (|a| == 3 || a[3] <= b[3]))))))
  {
    if |a| > 0 {
      LexUnrolled(a[1..], b[1..]);
    }
  }

  // ---------------------------------------------------------------- the two sorted lists

  predicate IsLive(h: Held, canExpire: bool, today: int) {
    && (canExpire && h.batch.expiry.Some? ==> h.batch.expiry.value >= today)
    && Available(h) > 0
  }

  function Live(list: seq<Held>, canExpire: bool, today: int): seq<Held> {
    if list == [] then []
    else (if IsLive(list[0], canExpire, today) then [list[0]] else []) + Live(list[1..], canExpire, today)
  }

  function OrderOf(item: Item): Order {
    if item.issuance.FEFO? && item.canExpire then ByExpiry
    else if item.issuance.LIFO? then NewestFirst
    else OldestFirst
  }

  /** `sort_batches_for_drawer`. */
  function SortForDrawer(list: seq<Held>, item: Item, today: int): seq<Held> {
    Sort(if item.canExpire then DrawerByExpiry else DrawerByDate, Live(list, item.canExpire, today))
  }

  /** `sort_batches_by_allocation_rule`. */
  function SortByRule(list: seq<Held>, item: Item, today: int): seq<Held> {
    Sort(OrderOf(item), Live(list, item.canExpire, today))
  }

  predicate DistinctIds(list: seq<Held>) {
    forall i, j :: 0 <= i < j < |list| ==> list[i].id != list[j].id
  }

  /** The filter of `get_available_batches`. */
  predicate IsAvailable(st: Stock, open: set<int>, item: int, warehouse: Option<int>, uom: Option<string>, h: Held) {
    && h.id in st.batches && st.batches[h.id] == h.batch
    && h.batch.item == item && h.batch.active
    && SlotOf(h.batch) in st.rows && st.rows[SlotOf(h.batch)].active
    && h.batch.warehouse in open
    && h.batch.usable > h.batch.reserved
    && (warehouse.Some? ==> h.batch.warehouse == warehouse.value)
    && (uom.Some? ==> h.batch.uom == uom.value)
  }

  /** `list` is the query's answer, in whatever order the database delivers it. */
  ghost predicate Answers(st: Stock, open: set<int>, item: int, warehouse: Option<int>, uom: Option<string>, list: seq<Held>) {
    && DistinctIds(list)
    && (forall h :: h in list ==> IsAvailable(st, open, item, warehouse, uom, h))
    && (forall id :: id in st.batches && IsAvailable(st, open, item, warehouse, uom, Held(id, st.batches[id]))
          ==> Held(id, st.batches[id]) in list)
  }

  /** `get_available_batches`: the joins and filters, record by record. */
  method AvailableBatches(st: Stock, open: set<int>, item: int, warehouse: Option<int>, uom: Option<string>)
    returns (list: seq<Held>)
    ensures Answers(st, open, item, warehouse, uom, list)
  {
    list := [];
    var todo := st.batches.Keys;
    while todo != {}
      invariant todo <= st.batches.Keys
      invariant DistinctIds(list) && forall h :: h in list ==> h.id !in todo
      invariant forall h :: h in list ==> IsAvailable(st, open, item, warehouse, uom, h)
      invariant forall id :: id in st.batches && id !in todo
                             && IsAvailable(st, open, item, warehouse, uom, Held(id, st.batches[id]))
                             ==> Held(id, st.batches[id]) in list
      decreases todo
    {
      var id := AnyOf(todo);
      var batch := st.batches[id];
      var row := Slot(batch.warehouse, batch.item);
      var kept := batch.item == item && batch.active && row in st.rows && st.rows[row].active && batch.warehouse in open
                  && batch.usable > batch.reserved;
      if warehouse.Some? && batch.warehouse != warehouse.value {
        kept := false;
      }
      if uom.Some? && batch.uom != uom.value {
        kept := false;
      }
      if kept {
        list := list + [Held(id, batch)];
      }
      todo := todo - {id};
    }
  }

  lemma {:induction false} LiveSelects(list: seq<Held>, canExpire: bool, today: int)
    ensures forall h :: h in Live(list, canExpire, today) <==> h in list && IsLive(h, canExpire, today)
    ensures DistinctIds(list) ==> DistinctIds(Live(list, canExpire, today))
    decreases |list|
  {
    if list == [] {
    } else {
      LiveSelects(list[1..], canExpire, today);
      assert list == [list[0]] + list[1..];
      if DistinctIds(list) {
        forall h | h in list[1..] ensures h.id != list[0].id {
          var j :| 0 <= j < |list[1..]| && list[1..][j] == h;
          assert list[j + 1] == h;
        }
      }
    }
  }

  lemma {:induction false} InsertKeepsDistinct(order: Order, h: Held, list: seq<Held>)
    requires DistinctIds(list) && forall x :: x in list ==> x.id != h.id
    ensures DistinctIds(Insert(order, h, list))
    ensures forall x :: x in Insert(order, h, list) <==> x == h || x in list
    decreases |list|
  {
    if list != [] && !Before(order, h, list[0]) {
      InsertKeepsDistinct(order, h, list[1..]);
      assert list == [list[0]] + list[1..];
      forall x | x in list[1..] ensures x.id != list[0].id {
        var j :| 0 <= j < |list[1..]| && list[1..][j] == x;
        assert list[j + 1] == x;
      }
    }
  }

  lemma {:induction false} SortKeepsDistinct(order: Order, list: seq<Held>)
    requires DistinctIds(list)
    ensures DistinctIds(Sort(order, list))
    ensures forall x :: x in Sort(order, list) <==> x in list
    decreases |list|
  {
    if list == [] {
    } else {
      SortKeepsDistinct(order, list[1..]);
      forall x | x in list[1..] ensures x.id != list[0].id {
        var j :| 0 <= j < |list[1..]| && list[1..][j] == x;
        assert list[j + 1] == x;
      }
      InsertKeepsDistinct(order, list[0], Sort(order, list[1..]));
      assert list == [list[0]] + list[1..];
    }
  }

  // ---------------------------------------------------------------- what the sorted lists promise

  /** What automatic allocation counts as available is exactly what validation accepts for a fresh package. */
  lemma RemainderIsValid(batches: map<int, Batch>, today: int, h: Held, qty: Qty)
    requires h.id in batches && batches[h.id] == h.batch
    requires h.batch.active && (h.batch.expiry.Some? ==> today <= h.batch.expiry.value)
    ensures AllocationValid(batches, today, h.id, h.batch.item, qty, 0) <==> 0 < qty <= Available(h)
  {
  }

  predicate AllDated(list: seq<Held>) {
    forall h :: h in list ==> Dated(h.batch.batchDate)
  }

  lemma SortedAt(order: Order, list: seq<Held>, i: nat, j: nat)
    requires i < j < |Sort(order, list)|
    ensures Before(order, Sort(order, list)[i], Sort(order, list)[j])
    ensures Sort(order, list)[i] in list && Sort(order, list)[j] in list
  {
    hide SortKey, LexLeq;
    SortSorts(order, list);
    assert Sort(order, list)[i] in multiset(list) && Sort(order, list)[j] in multiset(list);
  }

  /** Automatic allocation works through the stock by the item's own rule: FEFO items that expire by expiry date,
      LIFO items from the newest batch, and all others, FEFO items that cannot expire among them, from the oldest;
      ties go to the larger remainder. */
  lemma RuleOrder(batches: seq<Held>, item: Item, today: int, i: nat, j: nat)
    requires AllDated(batches) && i < j < |SortByRule(batches, item, today)|
    ensures var x, y := SortByRule(batches, item, today)[i], SortByRule(batches, item, today)[j];
            match item.issuance
            case LIFO => NoOlder(x, y) && (NoOlder(y, x) ==> HasMore(x, y))
            case FIFO => NoYounger(x, y) && (NoYounger(y, x) ==> HasMore(x, y))
            case FEFO =>
              if item.canExpire then
                && ExpiresBy(x, y)
                && (ExpiresBy(y, x) ==> NoYoungerDatedFirst(x, y) && (NoYoungerDatedFirst(y, x) ==> HasMore(x, y)))
              else NoYounger(x, y) && (NoYounger(y, x) ==> HasMore(x, y))
  {
    var x, y := SortByRule(batches, item, today)[i], SortByRule(batches, item, today)[j];
    LiveSelects(batches, item.canExpire, today);
    SortedAt(OrderOf(item), Live(batches, item.canExpire, today), i, j);
    BeforeMeans(OrderOf(item), x, y);
  }

  /** The drawer's list goes by expiry date for items that expire and by batch date for all others; the issuance rule
      has no say in it. */
  lemma DrawerOrder(batches: seq<Held>, item: Item, today: int, i: nat, j: nat)
    requires AllDated(batches) && i < j < |SortForDrawer(batches, item, today)|
    ensures var x, y := SortForDrawer(batches, item, today)[i], SortForDrawer(batches, item, today)[j];
            if item.canExpire then ExpiresBy(x, y) && (ExpiresBy(y, x) ==> NoYoungerDatedFirst(x, y)) else NoYounger(x, y)
  {
    var order := if item.canExpire then DrawerByExpiry else DrawerByDate;
    var x, y := SortForDrawer(batches, item, today)[i], SortForDrawer(batches, item, today)[j];
    LiveSelects(batches, item.canExpire, today);
    SortedAt(order, Live(batches, item.canExpire, today), i, j);
    BeforeMeans(order, x, y);
  }

  /** Both lists hold exactly the batches with a remainder that, where the item expires, have not expired. */
  lemma SortedListsHold(batches: seq<Held>, item: Item, today: int, h: Held)
    ensures h in SortByRule(batches, item, today) <==> h in SortForDrawer(batches, item, today)
    ensures h in SortByRule(batches, item, today) <==>
            && h in batches && h.batch.reserved < h.batch.usable
            && (item.canExpire ==> h.batch.expiry.None? || today <= h.batch.expiry.value)
  {
    hide SortKey, LexLeq;
    var live := Live(batches, item.canExpire, today);
    LiveSelects(batches, item.canExpire, today);
    SortSorts(OrderOf(item), live);
    SortSorts(if item.canExpire then DrawerByExpiry else DrawerByDate, live);
    assert h in SortByRule(batches, item, today) <==> h in multiset(SortByRule(batches, item, today));
    assert h in SortForDrawer(batches, item, today) <==> h in multiset(SortForDrawer(batches, item, today));
    assert h in live <==> h in multiset(live);
  }

  // ---------------------------------------------------------------- automatic allocation

  function Avails(list: seq<Held>): seq<int> {
    seq(|list|, i requires 0 <= i < |list| => Available(list[i]))
  }

  datatype Draw = Draw(id: int, warehouse: int, qty: Qty)

  /** The positive quantities of a filling, with the batches they come from. */
  function Draws(list: seq<Held>, fills: seq<int>): seq<Draw>
    requires |list| == |fills|
    decreases |list|
  {
    if list == [] then []
    else
      var n := |list| - 1;
      Draws(list[..n], fills[..n])
      + if fills[n] > 0 then [Draw(list[n].id, list[n].batch.warehouse, fills[n])] else []
  }

  /** What automatic allocation of `want` from a sorted list yields, and how much that is. */
  function AutoDraws(list: seq<Held>, want: Qty): seq<Draw> {
    Draws(list, Fill(Avails(list), want))
  }

  function AutoDrawn(list: seq<Held>, want: Qty): Qty {
    Total(Fill(Avails(list), want))
  }

  /** One more batch at the end of the list. */
  lemma AutoSnoc(list: seq<Held>, h: Held, want: Qty)
    ensures var take := Take(Available(h), want - AutoDrawn(list, want));
            && AutoDrawn(list + [h], want) == AutoDrawn(list, want) + take
            && AutoDraws(list + [h], want)
               == AutoDraws(list, want) + if take > 0 then [Draw(h.id, h.batch.warehouse, take)] else []
  {
    var n := |list|;
    var front := Fill(Avails(list), want);
    var take := Take(Available(h), want - Total(front));
    assert Avails(list + [h])[..n] == Avails(list);
    var fills := Fill(Avails(list + [h]), want);
    assert fills == front + [take];
    assert fills[..n] == front && (list + [h])[..n] == list;
    TotalSnoc(front, take);
  }

  /** Once the demand is met, later batches add nothing. */
  lemma {:induction false} NothingLeft(list: seq<Held>, want: Qty, i: nat)
    requires i <= |list|
    requires want <= AutoDrawn(list[..i], want)
    ensures AutoDraws(list[..i], want) == AutoDraws(list, want)
    ensures AutoDrawn(list[..i], want) == AutoDrawn(list, want)
    decreases |list|
  {
    hide AutoDraws, AutoDrawn;
    if i == |list| {
      assert list[..i] == list;
    } else {
      var n := |list| - 1;
      assert list[..n][..i] == list[..i] && list[..n] + [list[n]] == list;
      NothingLeft(list[..n], want, i);
      AutoSnoc(list[..n], list[n], want);
    }
  }

  /** `auto_allocate_batches` on the batches the availability query delivers for an item. */
  method AutoAllocate(item: Option<Item>, batches: seq<Held>, today: int, requested: Qty) returns (allocations: seq<Draw>)
    ensures allocations
            == if item.Some? then AutoDraws(SortByRule(batches, item.value, today), requested) else []
  {
    hide SortByRule, AutoDraws, AutoDrawn;
    allocations := [];
    if item.None? {
      return;
    }
    var sorted := SortByRule(batches, item.value, today);
    var remaining := requested;
    var i := 0;
    NothingDrawn(requested);
    assert sorted[..0] == [];
    while i < |sorted|
      invariant 0 <= i <= |sorted|
      invariant allocations == AutoDraws(sorted[..i], requested)
      invariant remaining == requested - AutoDrawn(sorted[..i], requested)
    {
      var batch := sorted[i];
      if remaining <= 0 {
        NothingLeft(sorted, requested, i);
        return;
      }
      AutoSnoc(sorted[..i], batch, requested);
      assert sorted[..i + 1] == sorted[..i] + [batch];
      var taken := Min(Available(batch), remaining);
      if taken > 0 {
        allocations := allocations + [Draw(batch.id, batch.batch.warehouse, taken)];
        remaining := remaining - taken;
      }
      i := i + 1;
    }
    assert sorted[..i] == sorted;
  }

  lemma NothingDrawn(want: Qty)
    ensures AutoDraws([], want) == [] && AutoDrawn([], want) == 0
  {
  }

  // ---------------------------------------------------------------- the dominance theorem

  /** What a way of drawing takes from the batches whose key is at or before `cut`. */
  function DrawnUpTo(order: Order, list: seq<Held>, draws: seq<int>, cut: seq<int>): int
    requires |list| == |draws|
    decreases |list|
  {
    if list == [] then 0
    else
      var n := |list| - 1;
      DrawnUpTo(order, list[..n], draws[..n], cut)
      + if LexLeq(SortKey(order, list[n]), cut) then draws[n] else 0
  }

  /** How many batches of a list are at or before a cut-off key. */
  function CutSize(order: Order, list: seq<Held>, cut: seq<int>): (k: nat)
    ensures k <= |list|
    decreases |list|
  {
    if list == [] then 0
    else
      var n := |list| - 1;
      CutSize(order, list[..n], cut) + if LexLeq(SortKey(order, list[n]), cut) then 1 else 0
  }

  /** In a sorted list they form a prefix. */
  lemma {:induction false} CutIsPrefix(order: Order, list: seq<Held>, draws: seq<int>, cut: seq<int>)
    requires |list| == |draws| && Sorted(order, list)
    ensures forall i :: 0 <= i < CutSize(order, list, cut) ==> LexLeq(SortKey(order, list[i]), cut)
    ensures DrawnUpTo(order, list, draws, cut) == SumTo(draws, CutSize(order, list, cut))
    decreases |list|
  {
    hide SortKey, LexLeq;
    if list == [] {
    } else {
      var n := |list| - 1;
      var k := CutSize(order, list[..n], cut);
      CutIsPrefix(order, list[..n], draws[..n], cut);
      SumToPrefix(draws, draws[..n], k);
      if LexLeq(SortKey(order, list[n]), cut) {
        forall i | 0 <= i < n ensures LexLeq(SortKey(order, list[i]), cut) {
          assert Before(order, list[i], list[n]);
          LexTransitive(SortKey(order, list[i]), SortKey(order, list[n]), cut);
        }
        CutIsAll(order, list[..n], cut);
      } else {
        assert forall i :: 0 <= i < n ==> list[..n][i] == list[i];
      }
    }
  }

  lemma {:induction false} CutIsAll(order: Order, list: seq<Held>, cut: seq<int>)
    requires forall i :: 0 <= i < |list| ==> LexLeq(SortKey(order, list[i]), cut)
    ensures CutSize(order, list, cut) == |list|
    decreases |list|
  {
    hide SortKey, LexLeq;
    if list == [] {
    } else {
      CutIsAll(order, list[..|list| - 1], cut);
    }
  }

  /** Automatic allocation dominates: for every cut-off key of the sort order it draws at least as much from
      the batches at or before it as any other feasible allocation of the same total. */
  lemma AllocationDominates(order: Order, list: seq<Held>, want: Qty, draws: seq<int>, cut: seq<int>)
    requires Sorted(order, list) && Feasible(Avails(list), draws)
    requires Total(draws) == Total(Fill(Avails(list), want))
    ensures DrawnUpTo(order, list, draws, cut) <= DrawnUpTo(order, list, Fill(Avails(list), want), cut)
  {
    CutIsPrefix(order, list, draws, cut);
    CutIsPrefix(order, list, Fill(Avails(list), want), cut);
    FillDominates(Avails(list), want, draws, CutSize(order, list, cut));
  }

  /** The cut-off key that separates the batches expiring by a given day. */
  lemma ExpiryCut(h: Held, day: int)
    ensures LexLeq(SortKey(ByExpiry, h), [0, day + 1]) <==> h.batch.expiry.Some? && h.batch.expiry.value <= day
  {
    var key := SortKey(ByExpiry, h);
    var tail := key[1..];
    assert [0, day + 1][1..] == [day + 1] && [day + 1][1..] == [];
    assert tail[0] == key[1] && !LexLeq(tail[1..], []);
    assert LexLeq(tail, [day + 1]) <==> tail[0] <= day;
  }

  /** What a way of drawing takes from the batches that expire by a given day. */
  function ExpiringBy(list: seq<Held>, draws: seq<int>, day: int): int
    requires |list| == |draws|
    decreases |list|
  {
    if list == [] then 0
    else
      var n := |list| - 1;
      var e := list[n].batch.expiry;
      ExpiringBy(list[..n], draws[..n], day) + if e.Some? && e.value <= day then draws[n] else 0
  }

  lemma {:induction false} ExpiringByIsCut(list: seq<Held>, draws: seq<int>, day: int)
    requires |list| == |draws|
    ensures ExpiringBy(list, draws, day) == DrawnUpTo(ByExpiry, list, draws, [0, day + 1])
    decreases |list|
  {
    if list == [] {
    } else {
      var n := |list| - 1;
      ExpiringByIsCut(list[..n], draws[..n], day);
      ExpiryCut(list[n], day);
    }
  }

  /** First expired, first out: for every day, automatic allocation of an expirable FEFO item uses at least as
      much of the stock expiring by that day as any other feasible allocation of the same total. */
  lemma FefoUsesExpiringStock(batches: seq<Held>, item: Item, today: int, want: Qty, draws: seq<int>, day: int)
    requires item.canExpire && item.issuance == FEFO
    requires Feasible(Avails(SortByRule(batches, item, today)), draws)
    requires Total(draws) == Total(Fill(Avails(SortByRule(batches, item, today)), want))
    ensures var list := SortByRule(batches, item, today);
            ExpiringBy(list, draws, day) <= ExpiringBy(list, Fill(Avails(list), want), day)
  {
    var list := SortByRule(batches, item, today);
    SortSorts(ByExpiry, Live(batches, item.canExpire, today));
    AllocationDominates(ByExpiry, list, want, draws, [0, day + 1]);
    ExpiringByIsCut(list, draws, day);
    ExpiringByIsCut(list, Fill(Avails(list), want), day);
  }

  /** What a way of drawing takes from the batches dated by a given day; batches without a date are the oldest. */
  function DatedBy(list: seq<Held>, draws: seq<int>, day: int): int
    requires |list| == |draws|
    decreases |list|
  {
    if list == [] then 0
    else
      var n := |list| - 1;
      var d := list[n].batch.batchDate;
      DatedBy(list[..n], draws[..n], day) + if d.None? || d.value <= day then draws[n] else 0
  }

  /** What a way of drawing takes from the batches dated on or after a given day. */
  function DatedFrom(list: seq<Held>, draws: seq<int>, day: int): int
    requires |list| == |draws|
    decreases |list|
  {
    if list == [] then 0
    else
      var n := |list| - 1;
      var d := list[n].batch.batchDate;
      DatedFrom(list[..n], draws[..n], day) + if d.Some? && d.value >= day then draws[n] else 0
  }

  lemma DateCuts(h: Held, day: int)
    requires DATE_MIN <= day
    ensures LexLeq(SortKey(OldestFirst, h), [day + 1]) <==> h.batch.batchDate.None? || h.batch.batchDate.value <= day
    ensures LexLeq(SortKey(NewestFirst, h), [1 - day]) <==> h.batch.batchDate.Some? && h.batch.batchDate.value >= day
  {
    assert !LexLeq(SortKey(OldestFirst, h)[1..], []) && !LexLeq(SortKey(NewestFirst, h)[1..], []);
    assert [day + 1][1..] == [] && [1 - day][1..] == [];
  }

  lemma {:induction false} DatedIsCut(list: seq<Held>, draws: seq<int>, day: int)
    requires |list| == |draws| && DATE_MIN <= day
    ensures DatedBy(list, draws, day) == DrawnUpTo(OldestFirst, list, draws, [day + 1])
    ensures DatedFrom(list, draws, day) == DrawnUpTo(NewestFirst, list, draws, [1 - day])
    decreases |list|
  {
    hide SortKey, LexLeq;
    if list == [] {
    } else {
      var n := |list| - 1;
      DatedIsCut(list[..n], draws[..n], day);
      DateCuts(list[n], day);
    }
  }

  /** First in, first out: for every day, automatic allocation of a FIFO item, or of a FEFO item that cannot expire,
      uses at least as much of the stock dated by that day as any other feasible allocation of the same total. */
  lemma FifoUsesOldestStock(batches: seq<Held>, item: Item, today: int, want: Qty, draws: seq<int>, day: int)
    requires item.issuance == FIFO || (item.issuance == FEFO && !item.canExpire)
    requires Feasible(Avails(SortByRule(batches, item, today)), draws) && DATE_MIN <= day
    requires Total(draws) == Total(Fill(Avails(SortByRule(batches, item, today)), want))
    ensures var list := SortByRule(batches, item, today);
            DatedBy(list, draws, day) <= DatedBy(list, Fill(Avails(list), want), day)
  {
    var list := SortByRule(batches, item, today);
    SortSorts(OldestFirst, Live(batches, item.canExpire, today));
    AllocationDominates(OldestFirst, list, want, draws, [day + 1]);
    DatedIsCut(list, draws, day);
    DatedIsCut(list, Fill(Avails(list), want), day);
  }

  /** Last in, first out: the mirror image, for the stock dated on or after a day. */
  lemma LifoUsesNewestStock(batches: seq<Held>, item: Item, today: int, want: Qty, draws: seq<int>, day: int)
    requires item.issuance == LIFO
    requires Feasible(Avails(SortByRule(batches, item, today)), draws) && DATE_MIN <= day
    requires Total(draws) == Total(Fill(Avails(SortByRule(batches, item, today)), want))
    ensures var list := SortByRule(batches, item, today);
            DatedFrom(list, draws, day) <= DatedFrom(list, Fill(Avails(list), want), day)
  {
    var list := SortByRule(batches, item, today);
    SortSorts(NewestFirst, Live(batches, item.canExpire, today));
    AllocationDominates(NewestFirst, list, want, draws, [1 - day]);
    DatedIsCut(list, draws, day);
    DatedIsCut(list, Fill(Avails(list), want), day);
  }

  /** The total allocated is the smaller of the request and the stock eligible for it. */
  lemma AllocatesAllItCan(batches: seq<Held>, item: Item, today: int, want: Qty)
    requires 0 <= want
    ensures var available := Avails(SortByRule(batches, item, today));
            Total(Fill(available, want)) == Min(want, Total(available))
  {
    var list := SortByRule(batches, item, today);
    RuleListIsLive(batches, item, today);
    FilledSoFar(Avails(list), want, |list|);
    SumToMonotone(Avails(list), 0, |list|);
  }

  lemma RuleListIsLive(batches: seq<Held>, item: Item, today: int)
    ensures forall h :: h in SortByRule(batches, item, today) ==> h in batches && IsLive(h, item.canExpire, today)
    ensures forall i :: 0 <= i < |SortByRule(batches, item, today)| ==> Available(SortByRule(batches, item, today)[i]) > 0
  {
    var live := Live(batches, item.canExpire, today);
    var list := SortByRule(batches, item, today);
    LiveSelects(batches, item.canExpire, today);
    SortSorts(OrderOf(item), live);
    forall h | h in list ensures h in batches && IsLive(h, item.canExpire, today) {
      assert h in multiset(list);
      assert h in live;
    }
    forall i | 0 <= i < |list| ensures Available(list[i]) > 0 {
      assert list[i] in list;
    }
  }
}
