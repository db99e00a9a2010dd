/** The batch drawer: which batches are shown, and why the short list is as good as the full one
    (`get_limited_batches_for_drawer` and `assign_priority_groups`). */
module Drawer {
  import opened Stock
  import opened Filling
  import opened Allocation

  /** The drawer's question: how much is still needed, which batches the package already uses, and with what
      quantities. */
  datatype Ask = Ask(item: Item, today: int, remaining: Qty, allotted: set<int>, current: map<int, Qty>)

  function Released(ask: Ask, id: int): Qty {
    if id in ask.current then ask.current[id] else 0
  }

  /** Availability once the package's own quantity is given back. */
  function Effective(ask: Ask, h: Held): Qty {
    h.batch.usable - (h.batch.reserved - Released(ask, h.id))
  }

  /** The drawer offers exactly what validation accepts: for an active batch that has not expired, a quantity can be
      entered within the offer if and only if it passes beside the package's own quantity. */
  lemma OfferIsValid(batches: map<int, Batch>, ask: Ask, h: Held, qty: Qty)
    requires h.id in batches && batches[h.id] == h.batch
    requires h.batch.active && (h.batch.expiry.Some? ==> ask.today <= h.batch.expiry.value)
    ensures var own := if h.id in ask.current then ask.current[h.id] else 0;
            AllocationValid(batches, ask.today, h.id, h.batch.item, qty, own) <==> 0 < qty <= Effective(ask, h)
  {
  }

  function Effectives(ask: Ask, list: seq<Held>): seq<int> {
    seq(|list|, i requires 0 <= i < |list| => Effective(ask, list[i]))
  }

  function EffectiveTotal(ask: Ask, list: seq<Held>): Qty {
    Total(Effectives(ask, list))
  }

  lemma EffectivesConcat(ask: Ask, a: seq<Held>, h: Held)
    ensures Effectives(ask, a + [h]) == Effectives(ask, a) + [Effective(ask, h)]
    ensures EffectiveTotal(ask, a + [h]) == EffectiveTotal(ask, a) + Effective(ask, h)
  {
    assert Effectives(ask, a + [h]) == Effectives(ask, a) + [Effective(ask, h)];
    TotalSnoc(Effectives(ask, a), Effective(ask, h));
  }

  lemma {:induction false} EffectiveTotalSplit(ask: Ask, a: seq<Held>, b: seq<Held>)
    ensures EffectiveTotal(ask, a + b) == EffectiveTotal(ask, a) + EffectiveTotal(ask, b)
    decreases |b|
  {
    if b == [] {
      assert a + b == a;
    } else {
      var n := |b| - 1;
      EffectiveTotalSplit(ask, a, b[..n]);
      EffectivesConcat(ask, a + b[..n], b[n]);
      EffectivesConcat(ask, b[..n], b[n]);
      assert a + b[..n] + [b[n]] == a + b && b[..n] + [b[n]] == b;
    }
  }

  /** One column over a list of batches, and the package's own quantities on them. */
  function ListSum(list: seq<Held>, c: Column): Qty
    decreases |list|
  {
    if list == [] then 0 else ListSum(list[..|list| - 1], c) + Cell(list[|list| - 1].batch, c)
  }

  function OwnSum(current: map<int, Qty>, list: seq<Held>): Qty
    decreases |list|
  {
    if list == [] then 0
    else
      var id := list[|list| - 1].id;
      OwnSum(current, list[..|list| - 1]) + if id in current then current[id] else 0
  }

  /** What a list offers is its usable stock without what others have reserved of it. */
  lemma {:induction false} OffersAddUp(ask: Ask, list: seq<Held>)
    ensures EffectiveTotal(ask, list) == ListSum(list, Usable) - (ListSum(list, Reserved) - OwnSum(ask.current, list))
    decreases |list|
  {
    hide EffectiveTotal;
    if list == [] {
      NothingOffered(ask);
    } else {
      var n := |list| - 1;
      OffersAddUp(ask, list[..n]);
      EffectivesConcat(ask, list[..n], list[n]);
      assert list[..n] + [list[n]] == list;
    }
  }

  lemma NothingOffered(ask: Ask)
    ensures EffectiveTotal(ask, []) == 0
  {
  }

  // ---------------------------------------------------------------- early stopping in one warehouse

  /** The running state of the loop over one warehouse. */
  datatype Scanned = Scanned(shown: seq<Held>, cumulative: Qty, fulfilled: bool)

  function ScanOne(ask: Ask, p: Scanned, h: Held): Scanned {
    if h.id in ask.allotted || !p.fulfilled then
      var c := p.cumulative + Effective(ask, h);
      Scanned(p.shown + [h], c, p.fulfilled || c >= ask.remaining)
    else p
  }

  function Scan(ask: Ask, group: seq<Held>): Scanned
    decreases |group|
  {
    if group == [] then Scanned([], 0, false)
    else ScanOne(ask, Scan(ask, group[..|group| - 1]), group[|group| - 1])
  }

  predicate AllPositive(ask: Ask, group: seq<Held>) {
    forall i :: 0 <= i < |group| ==> Effective(ask, group[i]) > 0
  }

  /** The rule the early stop implements: a batch is shown when the package already uses it, when it is the
      first of its warehouse, or when the batches before it do not yet cover the demand. */
  predicate ShownAt(ask: Ask, group: seq<Held>, i: nat)
    requires i < |group|
  {
    group[i].id in ask.allotted || i == 0 || EffectiveTotal(ask, group[..i]) < ask.remaining
  }

  /** The shown batches among the first `n`, in order. */
  function ShownOf(ask: Ask, group: seq<Held>, n: nat): seq<Held>
    requires n <= |group|
  {
    if n == 0 then []
    else ShownOf(ask, group, n - 1) + if ShownAt(ask, group, n - 1) then [group[n - 1]] else []
  }

  /** What the loop knows after `n` batches: it is fulfilled exactly when they cover the demand, and until then
      it has shown them all. */
  lemma {:induction false} ScanKnows(ask: Ask, group: seq<Held>)
    requires AllPositive(ask, group)
    ensures var p := Scan(ask, group);
            && (p.fulfilled <==> group != [] && EffectiveTotal(ask, group) >= ask.remaining)
            && (!p.fulfilled ==> p.shown == group)
            && p.cumulative == EffectiveTotal(ask, p.shown)
            && (p.fulfilled ==> p.cumulative >= ask.remaining)
    decreases |group|
  {
    if group == [] {
    } else {
      var n := |group| - 1;
      var front := group[..n];
      ScanKnows(ask, front);
      EffectivesConcat(ask, front, group[n]);
      assert front + [group[n]] == group;
      EffectivesConcat(ask, Scan(ask, front).shown, group[n]);
    }
  }

  /** Early stopping is exact: the loop shows precisely the batches the rule names, in order. */
  lemma {:induction false} ScanIsExact(ask: Ask, group: seq<Held>, n: nat)
    requires AllPositive(ask, group) && n <= |group|
    ensures Scan(ask, group[..n]).shown == ShownOf(ask, group, n)
    decreases n
  {
    hide EffectiveTotal;
    if n == 0 {
    } else {
      ScanIsExact(ask, group, n - 1);
      ScanKnows(ask, group[..n - 1]);
      assert group[..n][..n - 1] == group[..n - 1];
    }
  }

  /** The short list offers the demand in full, or everything the warehouse has. */
  lemma ScanCoversDemand(ask: Ask, group: seq<Held>)
    requires AllPositive(ask, group)
    ensures var shown := Scan(ask, group).shown;
            || shown == group
            || (EffectiveTotal(ask, shown) >= ask.remaining && EffectiveTotal(ask, group) >= ask.remaining)
  {
    ScanKnows(ask, group);
  }

  // ---------------------------------------------------------------- filling from the short list

  function DrawerDraws(ask: Ask, list: seq<Held>): seq<Draw> {
    Draws(list, Fill(Effectives(ask, list), ask.remaining))
  }

  function Drawn(ask: Ask, list: seq<Held>): Qty {
    Total(Fill(Effectives(ask, list), ask.remaining))
  }

  lemma DrawerSnoc(ask: Ask, list: seq<Held>, h: Held)
    ensures var take := Take(Effective(ask, h), ask.remaining - Drawn(ask, list));
            && Drawn(ask, list + [h]) == Drawn(ask, list) + take
            && DrawerDraws(ask, list + [h])
               == DrawerDraws(ask, list) + if take > 0 then [Draw(h.id, h.batch.warehouse, take)] else []
  {
    var n := |list|;
    EffectivesConcat(ask, list, h);
    var es := Effectives(ask, list + [h]);
    assert es[..n] == Effectives(ask, list) && es[n] == Effective(ask, h);
    var front := Fill(Effectives(ask, list), ask.remaining);
    var fills := Fill(es, ask.remaining);
    assert fills == front + [Take(Effective(ask, h), ask.remaining - Total(front))];
    TotalSnoc(front, Take(Effective(ask, h), ask.remaining - Total(front)));
    assert fills[..n] == front && (list + [h])[..n] == list;
  }

  /** Refinement: filling the demand greedily from the short list draws exactly the same quantities from exactly
      the same batches as filling it from the complete sorted list of the warehouse. */
  lemma {:induction false} ShortListRefines(ask: Ask, group: seq<Held>)
    requires AllPositive(ask, group)
    ensures DrawerDraws(ask, Scan(ask, group).shown) == DrawerDraws(ask, group)
    ensures Drawn(ask, Scan(ask, group).shown) == Drawn(ask, group)
    decreases |group|
  {
    hide DrawerDraws, Drawn, EffectiveTotal, Effectives;
    if group == [] {
    } else {
      var n := |group| - 1;
      var front, h := group[..n], group[n];
      var p := Scan(ask, front);
      ShortListRefines(ask, front);
      ScanKnows(ask, front);
      assert front + [h] == group;
      DrawerSnoc(ask, front, h);
      if h.id in ask.allotted || !p.fulfilled {
        DrawerSnoc(ask, p.shown, h);
      } else {
        DemandIsMet(ask, front);
      }
    }
  }

  /** Batches that cover the demand leave none of it open. */
  lemma DemandIsMet(ask: Ask, list: seq<Held>)
    requires AllPositive(ask, list) && EffectiveTotal(ask, list) >= ask.remaining
    ensures ask.remaining <= Drawn(ask, list)
  {
    FilledSoFar(Effectives(ask, list), ask.remaining, |list|);
  }

  // ---------------------------------------------------------------- all warehouses

  /** Batches with nothing available are dropped unless the package already uses them. */
  predicate IsKept(ask: Ask, h: Held) {
    Effective(ask, h) > 0 || h.id in ask.allotted
  }

  /** The kept batches of one warehouse, in query order. */
  function KeptIn(ask: Ask, list: seq<Held>, w: int): seq<Held>
    decreases |list|
  {
    if list == [] then []
    else
      var h := list[|list| - 1];
      KeptIn(ask, list[..|list| - 1], w) + if h.batch.warehouse == w && IsKept(ask, h) then [h] else []
  }

  /** The positive availability counted for a warehouse. */
  function CountedIn(ask: Ask, list: seq<Held>, w: int): Qty
    decreases |list|
  {
    if list == [] then 0
    else
      var h := list[|list| - 1];
      CountedIn(ask, list[..|list| - 1], w)
      + if h.batch.warehouse == w && IsKept(ask, h) then Max(0, Effective(ask, h)) else 0
  }

  /** Warehouses in the order in which the query first mentions them. */
  function WarehousesOf(list: seq<Held>): seq<int>
    decreases |list|
  {
    if list == [] then []
    else
      var front := WarehousesOf(list[..|list| - 1]);
      var w := list[|list| - 1].batch.warehouse;
      if w in front then front else front + [w]
  }

  /** The complete sorted list of one warehouse. */
  function GroupOf(ask: Ask, list: seq<Held>, w: int): seq<Held> {
    SortForDrawer(KeptIn(ask, list, w), ask.item, ask.today)
  }

  /** The drawer's list, and the same list without early stopping. */
  function ShortList(ask: Ask, list: seq<Held>, warehouses: seq<int>): seq<Held>
    decreases |warehouses|
  {
    if warehouses == [] then []
    else
      var w := warehouses[|warehouses| - 1];
      ShortList(ask, list, warehouses[..|warehouses| - 1])
      + if CountedIn(ask, list, w) > 0 then Scan(ask, GroupOf(ask, list, w)).shown else []
  }

  function FullList(ask: Ask, list: seq<Held>, warehouses: seq<int>): seq<Held>
    decreases |warehouses|
  {
    if warehouses == [] then []
    else
      var w := warehouses[|warehouses| - 1];
      FullList(ask, list, warehouses[..|warehouses| - 1])
      + if CountedIn(ask, list, w) > 0 then GroupOf(ask, list, w) else []
  }

  /** Quantities given back are not negative. */
  predicate ReleasesSound(ask: Ask) {
    forall id :: id in ask.current ==> 0 <= ask.current[id]
  }

  /** Only batches with stock to spare reach a warehouse's sorted list. */
  lemma GroupIsPositive(ask: Ask, list: seq<Held>, w: int)
    requires ReleasesSound(ask)
    ensures AllPositive(ask, GroupOf(ask, list, w))
  {
    var kept := KeptIn(ask, list, w);
    var live := Live(kept, ask.item.canExpire, ask.today);
    var group := GroupOf(ask, list, w);
    LiveSelects(kept, ask.item.canExpire, ask.today);
    SortSorts(if ask.item.canExpire then DrawerByExpiry else DrawerByDate, live);
    forall i | 0 <= i < |group| ensures Effective(ask, group[i]) > 0 {
      assert group[i] in multiset(group);
      assert group[i] in live;
    }
  }

  lemma {:induction false} PositiveTotals(ask: Ask, list: seq<Held>)
    requires AllPositive(ask, list)
    ensures 0 <= EffectiveTotal(ask, list)
  {
    SumToMonotone(Effectives(ask, list), 0, |list|);
  }

  lemma {:induction false} ShortListOffers(ask: Ask, list: seq<Held>, warehouses: seq<int>)
    requires ReleasesSound(ask)
    ensures var short := EffectiveTotal(ask, ShortList(ask, list, warehouses));
            var full := EffectiveTotal(ask, FullList(ask, list, warehouses));
            && 0 <= short && 0 <= full
            && (short == full || (short >= ask.remaining && full >= ask.remaining))
    decreases |warehouses|
  {
    if warehouses == [] {
    } else {
      hide Scan, GroupOf, CountedIn, AllPositive, EffectiveTotal, ReleasesSound;
      var n := |warehouses| - 1;
      var w := warehouses[n];
      var front := warehouses[..n];
      ShortListOffers(ask, list, front);
      if CountedIn(ask, list, w) > 0 {
        var group := GroupOf(ask, list, w);
        GroupIsPositive(ask, list, w);
        ScanCoversDemand(ask, group);
        ShownIsPositive(ask, group);
        PositiveTotals(ask, group);
        PositiveTotals(ask, Scan(ask, group).shown);
        EffectiveTotalSplit(ask, ShortList(ask, list, front), Scan(ask, group).shown);
        EffectiveTotalSplit(ask, FullList(ask, list, front), group);
      } else {
        assert ShortList(ask, list, front) + [] == ShortList(ask, list, front);
        assert FullList(ask, list, front) + [] == FullList(ask, list, front);
      }
    }
  }

  lemma {:induction false} ShownIsPositive(ask: Ask, group: seq<Held>)
    requires AllPositive(ask, group)
    ensures AllPositive(ask, Scan(ask, group).shown)
    decreases |group|
  {
    if group == [] {
    } else {
      ShownIsPositive(ask, group[..|group| - 1]);
    }
  }

  function Shortfall(ask: Ask, list: seq<Held>): Qty {
    Max(0, ask.remaining - EffectiveTotal(ask, list))
  }

  /** The shortfall reported for the short list is the shortfall of the complete list, for every demand. */
  lemma ShortfallIsExact(ask: Ask, list: seq<Held>)
    requires ReleasesSound(ask)
    ensures Shortfall(ask, ShortList(ask, list, WarehousesOf(list))) == Shortfall(ask, FullList(ask, list, WarehousesOf(list)))
  {
    hide ShortList, FullList, EffectiveTotal;
    ShortListOffers(ask, list, WarehousesOf(list));
  }

  /** In every warehouse of the answer, the drawer shows exactly the batches named by the rule. */
  lemma DrawerIsExact(ask: Ask, list: seq<Held>, w: int)
    requires ReleasesSound(ask)
    ensures var group := GroupOf(ask, list, w);
            && Scan(ask, group).shown == ShownOf(ask, group, |group|)
            && DrawerDraws(ask, Scan(ask, group).shown) == DrawerDraws(ask, group)
  {
    var group := GroupOf(ask, list, w);
    GroupIsPositive(ask, list, w);
    hide GroupOf;
    ScanIsExact(ask, group, |group|);
    assert group[..|group|] == group;
    ShortListRefines(ask, group);
  }

  lemma {:induction false} KeptSelects(ask: Ask, list: seq<Held>, w: int)
    ensures forall h :: h in KeptIn(ask, list, w) <==> h in list && h.batch.warehouse == w && IsKept(ask, h)
    decreases |list|
  {
    if list == [] {
    } else {
      var n := |list| - 1;
      KeptSelects(ask, list[..n], w);
      assert list == list[..n] + [list[n]];
    }
  }

  /** A warehouse's sorted list holds its kept batches that are live. */
  lemma GroupSelects(ask: Ask, list: seq<Held>, w: int, h: Held)
    ensures h in GroupOf(ask, list, w)
            <==> h in list && h.batch.warehouse == w && IsKept(ask, h) && IsLive(h, ask.item.canExpire, ask.today)
  {
    var kept := KeptIn(ask, list, w);
    var live := Live(kept, ask.item.canExpire, ask.today);
    KeptSelects(ask, list, w);
    LiveSelects(kept, ask.item.canExpire, ask.today);
    SortSorts(if ask.item.canExpire then DrawerByExpiry else DrawerByDate, live);
    hide IsKept, IsLive;
    assert h in GroupOf(ask, list, w) <==> h in multiset(GroupOf(ask, list, w));
    assert h in live <==> h in multiset(live);
  }

  /** The early stop never drops a batch the package already uses. */
  lemma {:induction false} AllottedSurvives(ask: Ask, group: seq<Held>, h: Held)
    requires h.id in ask.allotted
    ensures h in Scan(ask, group).shown <==> h in group
    decreases |group|
  {
    if group == [] {
    } else {
      var n := |group| - 1;
      AllottedSurvives(ask, group[..n], h);
      assert group == group[..n] + [group[n]];
    }
  }

  /** A batch the package already uses is shown if and only if it has stock that nobody reserved and, where the
      item expires, has not expired. */
  lemma AllottedShownIff(ask: Ask, list: seq<Held>, w: int, h: Held)
    requires h in list && h.batch.warehouse == w && h.id in ask.allotted
    ensures h in Scan(ask, GroupOf(ask, list, w)).shown <==> IsLive(h, ask.item.canExpire, ask.today)
  {
    hide GroupOf, IsLive, Scan;
    GroupSelects(ask, list, w, h);
    AllottedSurvives(ask, GroupOf(ask, list, w), h);
  }

  lemma {:induction false} WarehouseListed(list: seq<Held>, h: Held)
    requires h in list
    ensures h.batch.warehouse in WarehousesOf(list)
    decreases |list|
  {
    var n := |list| - 1;
    if h == list[n] {
    } else {
      assert list == list[..n] + [list[n]];
      WarehouseListed(list[..n], h);
    }
  }

  /** A batch reaches the drawer's list through its own warehouse only. */
  lemma {:induction false} ShortListSelects(ask: Ask, list: seq<Held>, warehouses: seq<int>, h: Held)
    ensures h in ShortList(ask, list, warehouses)
            <==> && h.batch.warehouse in warehouses && CountedIn(ask, list, h.batch.warehouse) > 0
                 && h in Scan(ask, GroupOf(ask, list, h.batch.warehouse)).shown
    decreases |warehouses|
  {
    hide GroupOf, Scan, CountedIn;
    if warehouses == [] {
    } else {
      var n := |warehouses| - 1;
      var w := warehouses[n];
      ShortListSelects(ask, list, warehouses[..n], h);
      assert warehouses == warehouses[..n] + [w];
      if h in Scan(ask, GroupOf(ask, list, w)).shown {
        ShownStems(ask, GroupOf(ask, list, w));
        GroupSelects(ask, list, w, h);
      }
    }
  }

  /** A warehouse with a kept batch that has stock is counted. */
  lemma {:induction false} KeptIsCounted(ask: Ask, list: seq<Held>, h: Held)
    requires h in list && Effective(ask, h) > 0
    ensures CountedIn(ask, list, h.batch.warehouse) > 0
    decreases |list|
  {
    var n := |list| - 1;
    assert list == list[..n] + [list[n]];
    CountedIsNatural(ask, list[..n], h.batch.warehouse);
    if h == list[n] {
    } else {
      KeptIsCounted(ask, list[..n], h);
    }
  }

  lemma {:induction false} CountedIsNatural(ask: Ask, list: seq<Held>, w: int)
    ensures 0 <= CountedIn(ask, list, w)
    decreases |list|
  {
    if list == [] {
    } else {
      CountedIsNatural(ask, list[..|list| - 1], w);
    }
  }

  /** The same for the whole drawer: a batch the package uses is listed if and only if it is live and its warehouse
      is counted, which a live batch sees to unless a negative quantity was given back. */
  lemma AllottedListedIff(ask: Ask, list: seq<Held>, h: Held)
    requires h in list && h.id in ask.allotted
    ensures h in ShortList(ask, list, WarehousesOf(list))
            <==> IsLive(h, ask.item.canExpire, ask.today) && CountedIn(ask, list, h.batch.warehouse) > 0
    ensures ReleasesSound(ask)
            ==> (h in ShortList(ask, list, WarehousesOf(list)) <==> IsLive(h, ask.item.canExpire, ask.today))
  {
    hide GroupOf, Scan, ShortList, WarehousesOf;
    WarehouseListed(list, h);
    ShortListSelects(ask, list, WarehousesOf(list), h);
    AllottedShownIff(ask, list, h.batch.warehouse, h);
    if ReleasesSound(ask) && IsLive(h, ask.item.canExpire, ask.today) {
      assert Effective(ask, h) > 0;
      KeptIsCounted(ask, list, h);
    }
  }

  lemma {:induction false} ShortListStems(ask: Ask, list: seq<Held>, warehouses: seq<int>, h: Held)
    requires h in ShortList(ask, list, warehouses)
    ensures h in list
  {
    var w := h.batch.warehouse;
    hide GroupOf, Scan, ShortList;
    ShortListSelects(ask, list, warehouses, h);
    ShownStems(ask, GroupOf(ask, list, w));
    GroupSelects(ask, list, w, h);
  }

  /** From the tables to the screen: whatever order the query answers in, a batch the package uses is on display if
      and only if the query's filter lets it through and, where the item expires, it has not expired. */
  lemma AllottedOnDisplayIff(st: Stock, open: set<int>, item: int, uom: Option<string>, list: seq<Held>, ask: Ask, id: int)
    requires Answers(st, open, item, None, uom, list) && ReleasesSound(ask)
    requires id in st.batches && id in ask.allotted
    ensures var h := Held(id, st.batches[id]);
            h in ShortList(ask, list, WarehousesOf(list))
            <==> && IsAvailable(st, open, item, None, uom, h)
                 && (ask.item.canExpire && h.batch.expiry.Some? ==> h.batch.expiry.value >= ask.today)
  {
    var h := Held(id, st.batches[id]);
    hide ShortList, WarehousesOf;
    if h in list {
      AllottedListedIff(ask, list, h);
    } else if h in ShortList(ask, list, WarehousesOf(list)) {
      ShortListStems(ask, list, WarehousesOf(list), h);
    }
  }

  /** Nothing is shown but live batches: a batch whose whole stock is reserved stays hidden, and so does an expired one
      of an item that expires, even from the package that uses it. */
  lemma OnlyLiveIsShown(ask: Ask, list: seq<Held>, w: int, h: Held)
    requires h in Scan(ask, GroupOf(ask, list, w)).shown
    ensures Available(h) > 0 && (ask.item.canExpire && h.batch.expiry.Some? ==> h.batch.expiry.value >= ask.today)
  {
    hide GroupOf, Scan;
    ShownStems(ask, GroupOf(ask, list, w));
    GroupSelects(ask, list, w, h);
  }

  lemma {:induction false} ShownStems(ask: Ask, group: seq<Held>)
    ensures forall h :: h in Scan(ask, group).shown ==> h in group
    decreases |group|
  {
    if group == [] {
    } else {
      ShownStems(ask, group[..|group| - 1]);
    }
  }

  /** The loop over the sorted batches of one warehouse. */
  method ShowWarehouse(ask: Ask, group: seq<Held>, shown: seq<Held>) returns (limited: seq<Held>)
    ensures limited == shown + Scan(ask, group).shown
  {
    limited := shown;
    var cumulative, fulfilled := 0, false;
    assert group[..0] == [];
    for i := 0 to |group|
      invariant limited == shown + Scan(ask, group[..i]).shown
      invariant cumulative == Scan(ask, group[..i]).cumulative
      invariant fulfilled == Scan(ask, group[..i]).fulfilled
    {
      assert group[..i + 1][..i] == group[..i];
      var released := if group[i].id in ask.current then ask.current[group[i].id] else 0;
      var available := group[i].batch.usable - (group[i].batch.reserved - released);
      if group[i].id in ask.allotted {
        limited := limited + [group[i]];
        cumulative := cumulative + available;
        if cumulative >= ask.remaining {
          fulfilled := true;
        }
      } else if !fulfilled {
        limited := limited + [group[i]];
        cumulative := cumulative + available;
        if cumulative >= ask.remaining {
          fulfilled := true;
        }
      }
    }
    assert group[..|group|] == group;
  }

  method SumEffective(ask: Ask, list: seq<Held>) returns (total: Qty)
    ensures total == EffectiveTotal(ask, list)
    ensures total == ListSum(list, Usable) - (ListSum(list, Reserved) - OwnSum(ask.current, list))
  {
    total := 0;
    assert list[..0] == [];
    for i := 0 to |list|
      invariant total == EffectiveTotal(ask, list[..i])
    {
      EffectivesConcat(ask, list[..i], list[i]);
      assert list[..i + 1] == list[..i] + [list[i]];
      var released := if list[i].id in ask.current then ask.current[list[i].id] else 0;
      total := total + (list[i].batch.usable - (list[i].batch.reserved - released));
    }
    assert list[..|list|] == list;
    OffersAddUp(ask, list);
  }

  /** `get_limited_batches_for_drawer` on the batches the query delivers for an existing item. */
  method LimitedBatches(ask: Ask, batches: seq<Held>) returns (limited: seq<Held>, available: Qty, shortfall: Qty)
    ensures limited == ShortList(ask, batches, WarehousesOf(batches))
    ensures available == ListSum(limited, Usable) - (ListSum(limited, Reserved) - OwnSum(ask.current, limited))
    ensures shortfall == Max(0, ask.remaining - available)
    ensures ReleasesSound(ask) ==> shortfall == Shortfall(ask, FullList(ask, batches, WarehousesOf(batches)))
  {
    hide CountedIn, KeptIn, Scan, SortForDrawer, EffectiveTotal, WarehousesOf, ReleasesSound, FullList;
    var order, groups := GroupByWarehouse(ask, batches);
    limited := [];
    assert order[..0] == [];
    for i := 0 to |order|
      invariant limited == ShortList(ask, batches, order[..i])
    {
      var w := order[i];
      assert order[..i + 1][..i] == order[..i];
      if groups[w].counted > 0 {
        limited := ShowWarehouse(ask, SortForDrawer(groups[w].kept, ask.item, ask.today), limited);
      }
    }
    assert order[..|order|] == order;
    available := SumEffective(ask, limited);
    shortfall := Max(0, ask.remaining - available);
    if ReleasesSound(ask) {
      ShortfallIsExact(ask, batches);
    }
  }

  lemma KeptSnoc(ask: Ask, batches: seq<Held>, i: nat, w: int)
    requires i < |batches|
    ensures var h := batches[i];
            var own := h.batch.warehouse == w && IsKept(ask, h);
            && KeptIn(ask, batches[..i + 1], w) == KeptIn(ask, batches[..i], w) + (if own then [h] else [])
            && CountedIn(ask, batches[..i + 1], w) == CountedIn(ask, batches[..i], w) + (if own then Max(0, Effective(ask, h)) else 0)
  {
    assert batches[..i + 1][..i] == batches[..i];
  }

  /** The entry of one warehouse in the group table. */
  datatype Group = Group(kept: seq<Held>, counted: Qty)

  ghost function GroupEntry(ask: Ask, batches: seq<Held>, w: int): Group {
    Group(KeptIn(ask, batches, w), CountedIn(ask, batches, w))
  }

  /** The grouping loop: one entry per warehouse, in order of first mention. */
  method GroupByWarehouse(ask: Ask, batches: seq<Held>) returns (order: seq<int>, groups: map<int, Group>)
    ensures order == WarehousesOf(batches)
    ensures forall w :: w in order ==> w in groups && groups[w] == GroupEntry(ask, batches, w)
  {
    order, groups := [], map[];
    assert batches[..0] == [];
    for i := 0 to |batches|
      invariant order == WarehousesOf(batches[..i])
      invariant forall w :: w in order <==> w in groups
      invariant forall w :: (if w in groups then groups[w] else Group([], 0)) == GroupEntry(ask, batches[..i], w)
    {
      assert batches[..i + 1][..i] == batches[..i];
      var h := batches[i];
      var w := h.batch.warehouse;
      var released := if h.id in ask.current then ask.current[h.id] else 0;
      var available := h.batch.usable - (h.batch.reserved - released);
      var isAllotted := h.id in ask.allotted;
      assert available == Effective(ask, h) && (IsKept(ask, h) <==> !(available <= 0 && !isAllotted));
      hide IsKept, Effective;
      ghost var before := groups;
      if w !in order {
        order, groups := order + [w], groups[w := Group([], 0)];
      }
      if !(available <= 0 && !isAllotted) {
        groups := groups[w := Group(groups[w].kept + [h], groups[w].counted + Max(0, available))];
      }
      forall v ensures (if v in groups then groups[v] else Group([], 0)) == GroupEntry(ask, batches[..i + 1], v) {
        KeptSnoc(ask, batches, i, v);
        assert (if v in before then before[v] else Group([], 0)) == GroupEntry(ask, batches[..i], v);
      }
    }
    assert batches[..|batches|] == batches;
  }

  // ---------------------------------------------------------------- priority groups

  /** The dates that decide a batch's priority group. */
  function PriorityKey(item: Item, h: Held): (Option<int>, Option<int>) {
    if item.issuance.FEFO? && item.canExpire then (h.batch.expiry, h.batch.batchDate) else (None, h.batch.batchDate)
  }

  /** Group numbers along a list: a new number whenever the key changes. */
  function Priorities(item: Item, list: seq<Held>): (ids: seq<int>)
    ensures |ids| == |list|
    decreases |list|
  {
    if list == [] then []
    else if |list| == 1 then [0]
    else
      var n := |list| - 1;
      var front := Priorities(item, list[..n]);
      front + [if PriorityKey(item, list[n]) == PriorityKey(item, list[n - 1]) then front[n - 1] else front[n - 1] + 1]
  }

  lemma {:induction false} PrioritiesPrefix(item: Item, list: seq<Held>, n: nat)
    requires n <= |list|
    ensures Priorities(item, list)[..n] == Priorities(item, list[..n])
    decreases |list|
  {
    if n == |list| {
      assert list[..n] == list;
    } else if |list| > 1 {
      var m := |list| - 1;
      PrioritiesPrefix(item, list[..m], n);
      assert list[..m][..n] == list[..n];
    } else {
      assert list[..n] == [];
    }
  }

  /** Neighbours share a group exactly when they share a key. */
  lemma PrioritiesStep(item: Item, list: seq<Held>, i: nat)
    requires i + 1 < |list|
    ensures var ids := Priorities(item, list);
            ids[i + 1] == if PriorityKey(item, list[i + 1]) == PriorityKey(item, list[i]) then ids[i] else ids[i] + 1
  {
    PrioritiesPrefix(item, list, i + 2);
    var ids := Priorities(item, list);
    assert ids[i] == ids[..i + 2][i] && ids[i + 1] == ids[..i + 2][i + 1];
    assert list[..i + 2][..i + 1] == list[..i + 1];
    PrioritiesPrefix(item, list[..i + 2], i + 1);
  }

  /** Two batches of an item belong together: the same batch date and, for a FEFO item that expires, the same expiry
      date. */
  predicate SameDates(item: Item, x: Held, y: Held) {
    && x.batch.batchDate == y.batch.batchDate
    && (item.canExpire && item.issuance == FEFO ==> x.batch.expiry == y.batch.expiry)
  }

  /** Group numbers never fall along the list, and two batches share one exactly when every batch between them
      has the same dates. */
  lemma {:induction false} PrioritiesAreRuns(item: Item, list: seq<Held>, i: nat, j: nat)
    requires i <= j < |list|
    ensures var ids := Priorities(item, list);
            && ids[i] <= ids[j]
            && (ids[i] == ids[j] <==> forall k :: i <= k <= j ==> SameDates(item, list[k], list[i]))
    decreases j
  {
    if i < j {
      PrioritiesAreRuns(item, list, i, j - 1);
      PrioritiesStep(item, list, j - 1);
      assert PriorityKey(item, list[j]) == PriorityKey(item, list[j - 1]) <==> SameDates(item, list[j], list[j - 1]);
    }
  }

  /** `assign_priority_groups`: numbers start at zero and rise by one exactly where the dates change. */
  method AssignPriorityGroups(batches: seq<Held>, item: Item) returns (groups: seq<(Held, int)>)
    ensures |groups| == |batches|
    ensures forall i :: 0 <= i < |batches| ==> groups[i] == (batches[i], Priorities(item, batches)[i])
    ensures batches != [] ==> groups[0].1 == 0
    ensures forall i :: 0 < i < |batches| ==>
              groups[i].1 == groups[i - 1].1 + if SameDates(item, batches[i], batches[i - 1]) then 0 else 1
  {
    groups := [];
    var id := 0;
    var prev := None;
    for i := 0 to |batches|
      invariant |groups| == i
      invariant forall j :: 0 <= j < i ==> groups[j] == (batches[j], Priorities(item, batches)[j])
      invariant i == 0 ==> id == 0 && prev == None
      invariant i > 0 ==> id == Priorities(item, batches)[i - 1] && prev == Some(PriorityKey(item, batches[i - 1]))
      invariant i > 0 ==> groups[0].1 == 0
      invariant forall j :: 0 < j < i ==>
        groups[j].1 == groups[j - 1].1 + if SameDates(item, batches[j], batches[j - 1]) then 0 else 1
    {
      var key := (None, batches[i].batch.batchDate);
      if item.issuance.FEFO? && item.canExpire {
        key := (batches[i].batch.expiry, batches[i].batch.batchDate);
      }
      if prev.Some? && key != prev.value {
        id := id + 1;
      }
      if i > 0 {
        PrioritiesStep(item, batches, i - 1);
      } else {
        PrioritiesPrefix(item, batches, 1);
        assert Priorities(item, batches)[0] == Priorities(item, batches)[..1][0];
      }
      groups := groups + [(batches[i], id)];
      prev := Some(key);
    }
  }
}
