/** Donation intake is exact and happens once. */
module Donations {
  import opened Stock
  import opened Intake
  import opened Workflow
  import opened Safety
  import opened Conservation

  /** The column sums of every warehouse row after a whole sheet. */
  lemma {:induction false} ReceiveAllSums(y: Yard, warehouse: int, arrivals: seq<Arrival>, s: Slot, c: Column)
    requires forall id :: id in y.stock.batches ==> id < y.next
    ensures ColumnSum(ReceiveAll(y, warehouse, arrivals).stock.batches, s, c)
            == ColumnSum(y.stock.batches, s, c) + if s.warehouse == warehouse then GainOf(arrivals, s.item, c) else 0
    decreases |arrivals|
  {
    if arrivals == [] {
    } else {
      var n := |arrivals| - 1;
      ReceiveAllSums(y, warehouse, arrivals[..n], s, c);
      ReceiveAllExtends(y, warehouse, arrivals[..n]);
      ReceiveOneSums(ReceiveAll(y, warehouse, arrivals[..n]), warehouse, arrivals[n], s, c);
    }
  }

  /** The yard an accepted sheet leads to. */
  lemma IntakeYard(s: State, a: Action, t: State) returns (arrivals: seq<Arrival>)
    requires Good(s) && a.ATakeIn? && Attempt(s, a) == Some(t)
    ensures a.d in s.donations && s.donations[a.d].status == Verified
    ensures a.d in t.donations && t.donations[a.d].status == Processed
    ensures var items := s.donations[a.d].items;
            && DistinctItems(items)
            && |arrivals| == |items|
            && (forall j :: 0 <= j < |items| ==>
                  && arrivals[j].item == items[j].item
                  && arrivals[j].usable + arrivals[j].defective + arrivals[j].expired == items[j].qty)
            && (forall j, k :: 0 <= j < k < |arrivals| ==> arrivals[j].item != arrivals[k].item)
    ensures Yard(t.stock, t.nextBatch) == ReceiveAll(Yard(s.stock, s.nextBatch), a.warehouse, arrivals)
  {
    SheetGivesSoundArrivals(s.stock.batches, s.catalog, a.today, a.sheet, s.donations[a.d].items);
    arrivals := Arrivals(s.catalog, a.sheet, s.donations[a.d].items);
  }

  /** The three kinds of stock an item has on the shelves. */
  ghost function OnShelves(st: Stock, item: int): Qty {
    ItemSum(st.batches, item, Usable) + ItemSum(st.batches, item, Defective) + ItemSum(st.batches, item, Expired)
  }

  /** An accepted intake puts exactly the donated quantity of each donated item on the shelves, reserves
      nothing, and leaves every other item as it was. */
  lemma IntakeAddsDonation(s: State, a: Action, item: int)
    requires Good(s) && a.ATakeIn? && Commits(s, a)
    ensures var t := Exec(s, a);
            var items := s.donations[a.d].items;
            && (forall j :: 0 <= j < |items| && items[j].item == item
                  ==> OnShelves(t.stock, item) == OnShelves(s.stock, item) + items[j].qty)
            && ((forall j :: 0 <= j < |items| ==> items[j].item != item)
                  ==> OnShelves(t.stock, item) == OnShelves(s.stock, item))
            && ItemSum(t.stock.batches, item, Reserved) == ItemSum(s.stock.batches, item, Reserved)
  {
    hide Attempt;
    var t := Exec(s, a);
    var arrivals := IntakeYard(s, a, t);
    var items := s.donations[a.d].items;
    var y := Yard(s.stock, s.nextBatch);
    ReceiveAllAdds(y, a.warehouse, arrivals, item, Usable);
    ReceiveAllAdds(y, a.warehouse, arrivals, item, Defective);
    ReceiveAllAdds(y, a.warehouse, arrivals, item, Expired);
    ReceiveAllAdds(y, a.warehouse, arrivals, item, Reserved);
    hide Good;
    if j :| 0 <= j < |items| && items[j].item == item {
      assert arrivals[j].item == item;
      GainOfOne(arrivals, j, Usable);
      GainOfOne(arrivals, j, Defective);
      GainOfOne(arrivals, j, Expired);
      GainOfOne(arrivals, j, Reserved);
      assert forall k :: 0 <= k < |items| && items[k].item == item ==> k == j;
    } else {
      GainOfAbsent(arrivals, item, Usable);
      GainOfAbsent(arrivals, item, Defective);
      GainOfAbsent(arrivals, item, Expired);
      GainOfAbsent(arrivals, item, Reserved);
    }
  }

  /** An accepted intake splits each donated item as its sheet does: the usable, defective and expired stock of the
      item rise by the quantities entered for them, and no column of any other item changes. */
  lemma IntakeSplits(s: State, a: Action, item: int, c: Column)
    requires Good(s) && a.ATakeIn? && Commits(s, a)
    ensures var items := s.donations[a.d].items;
            && (Donated(items, item) ==> item in a.sheet.entries)
            && ItemSum(Exec(s, a).stock.batches, item, c)
               == ItemSum(s.stock.batches, item, c) + if Donated(items, item) then OnForm(a.sheet.entries[item], c) else 0
  {
    SheetGains(s, a, item, c);
    hide GainOf, OnForm, Donated;
    ReceiveAllAdds(Yard(s.stock, s.nextBatch), a.warehouse, Arrivals(s.catalog, a.sheet, s.donations[a.d].items), item, c);
  }

  ghost function RowColumn(rows: map<Slot, Row>, s: Slot, c: Column): Qty {
    if s in rows then RowCell(rows[s], c) else 0
  }

  lemma RowColumnIsSum(st: Stock, s: Slot, c: Column)
    requires Sound(st)
    ensures RowColumn(st.rows, s, c) == ColumnSum(st.batches, s, c)
  {
    if s in st.rows {
      assert Mirrored(st, s);
    } else {
      forall id | id in st.batches ensures SlotOf(st.batches[id]) != s {
        assert BatchSound(st, id);
      }
      assert ColumnOf(st.batches, s, c) == map[];
    }
  }

  /** The same for the warehouse rows: the receiving warehouse's row of each donated item rises, column by column, by
      the quantities entered, and every other row stays as it was. */
  lemma IntakeSplitsRows(s: State, a: Action, slot: Slot, c: Column)
    requires Good(s) && a.ATakeIn? && Commits(s, a)
    ensures var items := s.donations[a.d].items;
            && (Donated(items, slot.item) ==> slot.item in a.sheet.entries)
            && RowColumn(Exec(s, a).stock.rows, slot, c)
               == RowColumn(s.stock.rows, slot, c)
                  + if slot.warehouse == a.warehouse && Donated(items, slot.item)
                    then OnForm(a.sheet.entries[slot.item], c) else 0
  {
    StepKeepsGood(s, a);
    SheetGains(s, a, slot.item, c);
    RowColumnIsSum(s.stock, slot, c);
    RowColumnIsSum(Exec(s, a).stock, slot, c);
    hide GainOf, OnForm, Donated, RowColumn;
    ReceiveAllSums(Yard(s.stock, s.nextBatch), a.warehouse, Arrivals(s.catalog, a.sheet, s.donations[a.d].items), slot, c);
  }

  ghost function RowTotal(rows: map<Slot, Row>, s: Slot): Qty {
    if s in rows then rows[s].usable + rows[s].defective + rows[s].expired else 0
  }

  lemma RowIsSum(st: Stock, s: Slot)
    requires Sound(st)
    ensures RowTotal(st.rows, s)
            == ColumnSum(st.batches, s, Usable) + ColumnSum(st.batches, s, Defective) + ColumnSum(st.batches, s, Expired)
  {
    if s in st.rows {
      assert Mirrored(st, s);
      assert RowCell(st.rows[s], Usable) == ColumnSum(st.batches, s, Usable);
      assert RowCell(st.rows[s], Defective) == ColumnSum(st.batches, s, Defective);
      assert RowCell(st.rows[s], Expired) == ColumnSum(st.batches, s, Expired);
    } else {
      forall id | id in st.batches ensures SlotOf(st.batches[id]) != s {
        assert BatchSound(st, id);
      }
      assert ColumnOf(st.batches, s, Usable) == map[];
      assert ColumnOf(st.batches, s, Defective) == map[];
      assert ColumnOf(st.batches, s, Expired) == map[];
    }
  }

  /** The warehouse rows follow: the receiving warehouse's row gains the donated quantity, every other row none. */
  lemma IntakeAddsToRows(s: State, a: Action, slot: Slot)
    requires Good(s) && a.ATakeIn? && Commits(s, a)
    ensures var t := Exec(s, a);
            var items := s.donations[a.d].items;
            && (forall j :: 0 <= j < |items| && slot == Slot(a.warehouse, items[j].item)
                  ==> RowTotal(t.stock.rows, slot) == RowTotal(s.stock.rows, slot) + items[j].qty)
            && ((forall j :: 0 <= j < |items| ==> slot != Slot(a.warehouse, items[j].item))
                  ==> RowTotal(t.stock.rows, slot) == RowTotal(s.stock.rows, slot))
  {
    hide Attempt;
    var t := Exec(s, a);
    StepKeepsGood(s, a);
    RowIsSum(s.stock, slot);
    RowIsSum(t.stock, slot);
    var arrivals := IntakeYard(s, a, t);
    var items := s.donations[a.d].items;
    var y := Yard(s.stock, s.nextBatch);
    ReceiveAllSums(y, a.warehouse, arrivals, slot, Usable);
    ReceiveAllSums(y, a.warehouse, arrivals, slot, Defective);
    ReceiveAllSums(y, a.warehouse, arrivals, slot, Expired);
    hide Good;
    if j :| 0 <= j < |items| && slot == Slot(a.warehouse, items[j].item) {
      assert arrivals[j].item == slot.item;
      GainOfOne(arrivals, j, Usable);
      GainOfOne(arrivals, j, Defective);
      GainOfOne(arrivals, j, Expired);
      assert forall k :: 0 <= k < |items| && items[k].item == slot.item ==> k == j;
    } else if slot.warehouse == a.warehouse {
      forall k | 0 <= k < |arrivals| ensures arrivals[k].item != slot.item {
        assert slot != Slot(a.warehouse, items[k].item);
      }
      GainOfAbsent(arrivals, slot.item, Usable);
      GainOfAbsent(arrivals, slot.item, Defective);
      GainOfAbsent(arrivals, slot.item, Expired);
    }
  }

  // ---------------------------------------------------------------- the batch an arrival ends up in

  /** The batch of `item` that the two tables have in common, and no other, is the same in both. */
  ghost predicate SameOf(was: map<int, Batch>, now: map<int, Batch>, item: int) {
    forall id :: (id in was && was[id].item == item) || (id in now && now[id].item == item)
                 ==> id in was && id in now && now[id] == was[id]
  }

  /** Arrivals of other items leave the batches of an item alone. */
  lemma {:induction false} OthersUntouched(y: Yard, warehouse: int, arrivals: seq<Arrival>, item: int)
    requires forall id :: id in y.stock.batches ==> id < y.next
    requires forall j :: 0 <= j < |arrivals| ==> arrivals[j].item != item
    ensures SameOf(y.stock.batches, ReceiveAll(y, warehouse, arrivals).stock.batches, item)
    decreases |arrivals|
  {
    if arrivals == [] {
    } else {
      var n := |arrivals| - 1;
      OthersUntouched(y, warehouse, arrivals[..n], item);
      ReceiveAllExtends(y, warehouse, arrivals[..n]);
    }
  }

  /** One arrival, spelled out: it joins the unnumbered batch of its warehouse and item, or becomes a new batch. */
  ghost predicate Shelved(was: map<int, Batch>, now: map<int, Batch>, warehouse: int, a: Arrival) {
    if a.batchNo.None? && exists id :: Unnumbered(was, warehouse, a.item, id) then
      exists id ::
        && Unnumbered(was, warehouse, a.item, id) && id in now
        && now[id] == was[id].(usable := was[id].usable + a.usable, defective := was[id].defective + a.defective,
                               expired := was[id].expired + a.expired)
    else
      exists id ::
        && id !in was && id in now
        && now[id] == Batch(a.item, warehouse, a.batchNo, a.batchDate, a.expiry, a.uom, true, a.usable, 0, a.defective, a.expired)
  }

  lemma ShelvedByItself(y: Yard, warehouse: int, a: Arrival)
    requires forall id :: id in y.stock.batches ==> id < y.next
    ensures Shelved(y.stock.batches, ReceiveOne(y, warehouse, a).stock.batches, warehouse, a)
  {
    var was, now := y.stock.batches, ReceiveOne(y, warehouse, a).stock.batches;
    if a.batchNo.None? && exists id :: Unnumbered(was, warehouse, a.item, id) {
      var id := TopTarget(y, warehouse, a);
      assert id in now;
    } else {
      assert y.next !in was && y.next in now;
    }
  }

  /** Shelving depends only on the item's own batches. */
  lemma ShelvedAlike(was: map<int, Batch>, mid: map<int, Batch>, next: map<int, Batch>, now: map<int, Batch>,
                     warehouse: int, a: Arrival)
    requires SameOf(was, mid, a.item) && Shelved(mid, next, warehouse, a) && SameOf(next, now, a.item)
    requires was.Keys <= mid.Keys
    ensures Shelved(was, now, warehouse, a)
  {
    assert forall id :: Unnumbered(was, warehouse, a.item, id) <==> Unnumbered(mid, warehouse, a.item, id);
    if a.batchNo.None? && exists id :: Unnumbered(was, warehouse, a.item, id) {
      var id :| && Unnumbered(mid, warehouse, a.item, id) && id in next
                && next[id] == mid[id].(usable := mid[id].usable + a.usable, defective := mid[id].defective + a.defective,
                                        expired := mid[id].expired + a.expired);
      assert Unnumbered(was, warehouse, a.item, id) && id in now;
    } else {
      var id :| && id !in mid && id in next
                && next[id] == Batch(a.item, warehouse, a.batchNo, a.batchDate, a.expiry, a.uom, true, a.usable, 0, a.defective, a.expired);
      assert id !in was && id in now;
    }
  }

  lemma {:induction false} EachIsShelved(y: Yard, warehouse: int, arrivals: seq<Arrival>, j: nat)
    requires forall id :: id in y.stock.batches ==> id < y.next
    requires j < |arrivals|
    requires forall i, k :: 0 <= i < k < |arrivals| ==> arrivals[i].item != arrivals[k].item
    ensures Shelved(y.stock.batches, ReceiveAll(y, warehouse, arrivals).stock.batches, warehouse, arrivals[j])
    decreases |arrivals|
  {
    hide Shelved, SameOf, ReceiveOne;
    var n := |arrivals| - 1;
    var z := ReceiveAll(y, warehouse, arrivals[..n]);
    ReceiveAllExtends(y, warehouse, arrivals[..n]);
    if j < n {
      EachIsShelved(y, warehouse, arrivals[..n], j);
      LastUntouched(z, warehouse, arrivals[n], arrivals[j].item);
      SameOfItself(y.stock.batches, arrivals[j].item);
      ShelvedAlike(y.stock.batches, y.stock.batches, z.stock.batches, ReceiveAll(y, warehouse, arrivals).stock.batches,
                   warehouse, arrivals[j]);
    } else {
      OthersUntouched(y, warehouse, arrivals[..n], arrivals[j].item);
      ShelvedByItself(z, warehouse, arrivals[j]);
      var now := ReceiveAll(y, warehouse, arrivals).stock.batches;
      SameOfItself(now, arrivals[j].item);
      ShelvedAlike(y.stock.batches, z.stock.batches, now, now, warehouse, arrivals[j]);
    }
  }

  lemma SameOfItself(batches: map<int, Batch>, item: int)
    ensures SameOf(batches, batches, item)
  {
  }

  lemma LastUntouched(y: Yard, warehouse: int, a: Arrival, item: int)
    requires forall id :: id in y.stock.batches ==> id < y.next
    requires a.item != item
    ensures SameOf(y.stock.batches, ReceiveOne(y, warehouse, a).stock.batches, item)
  {
  }

  /** The batch records after an accepted intake, in the words of the form: a donated item with a number becomes a new
      batch with that number, the entered date and unit, and the entered expiry date if the item expires; one without
      a number joins the unnumbered batch of the warehouse, or becomes it. */
  lemma IntakeFilesBatch(s: State, a: Action, j: nat)
    requires Good(s) && Labelled(s.stock.batches) && a.ATakeIn? && Commits(s, a) && j < |s.donations[a.d].items|
    ensures var item := s.donations[a.d].items[j].item;
            && item in a.sheet.entries
            && var was, now, e := s.stock.batches, Exec(s, a).stock.batches, a.sheet.entries[item];
            var date := if e.batchNo.Some? && e.batchDate.Given? then Some(e.batchDate.value) else None;
            var expiry := if item in s.catalog && s.catalog[item].canExpire && e.expiry.Given? then Some(e.expiry.value) else None;
            && e.uom.Some? && (e.batchNo.Some? ==> date.Some?)
            && if e.batchNo.None? && exists id :: Unnumbered(was, a.warehouse, item, id)
               then forall id :: Unnumbered(was, a.warehouse, item, id) ==>
                      && id in now
                      && now[id] == was[id].(usable := was[id].usable + OnForm(e, Usable),
                                             defective := was[id].defective + OnForm(e, Defective),
                                             expired := was[id].expired + OnForm(e, Expired))
               else exists id ::
                      && id !in was && id in now
                      && now[id] == Batch(item, a.warehouse, e.batchNo, date, expiry, e.uom.value, true,
                                          OnForm(e, Usable), 0, OnForm(e, Defective), OnForm(e, Expired))
  {
    var items := s.donations[a.d].items;
    SheetGivesSoundArrivals(s.stock.batches, s.catalog, a.today, a.sheet, items);
    var arrivals := Arrivals(s.catalog, a.sheet, items);
    EachIsShelved(Yard(s.stock, s.nextBatch), a.warehouse, arrivals, j);
    var was, now := s.stock.batches, Exec(s, a).stock.batches;
    assert now == ReceiveAll(Yard(s.stock, s.nextBatch), a.warehouse, arrivals).stock.batches;
    hide Good, Attempt, SheetPasses, DonatedPasses, ReceiveAll, Arrivals;
    ReadsOff(arrivals[j], a.sheet.entries[items[j].item]);
    if x :| && Unnumbered(was, a.warehouse, items[j].item, x) && arrivals[j].batchNo.None? {
      forall id | Unnumbered(was, a.warehouse, items[j].item, id) ensures id == x {
        assert id != x ==> Clash(was[id], was[x]);
      }
    }
  }

  lemma ReadsOff(a: Arrival, e: Entry)
    requires ReadFrom(a, e)
    ensures a.usable == OnForm(e, Usable) && a.defective == OnForm(e, Defective) && a.expired == OnForm(e, Expired)
  {
    assert Gain(a, Usable) == OnForm(e, Usable) && Gain(a, Defective) == OnForm(e, Defective)
           && Gain(a, Expired) == OnForm(e, Expired);
  }

  // ---------------------------------------------------------------- once only

  ghost predicate IsProcessed(s: State, d: int) {
    d in s.donations && s.donations[d].status == Processed
  }

  lemma ProcessedStays(s: State, a: Action, d: int)
    requires IsProcessed(s, d)
    ensures IsProcessed(Exec(s, a), d)
    ensures a.ATakeIn? && a.d == d ==> !Commits(s, a)
  {
  }

  lemma {:induction false} ProcessedStaysOnRuns(s: State, actions: seq<Action>, d: int)
    requires IsProcessed(s, d)
    ensures IsProcessed(Run(s, actions), d)
    decreases |actions|
  {
    hide Exec, IsProcessed;
    if actions == [] {
    } else {
      var n := |actions| - 1;
      ProcessedStaysOnRuns(s, actions[..n], d);
      ProcessedStays(Run(s, actions[..n]), actions[n], d);
    }
  }

  /** On no run is a donation taken in twice, into the same warehouse or another. */
  lemma TakenInOnce(s: State, actions: seq<Action>, i: nat, j: nat)
    requires Good(s) && i < j < |actions|
    requires actions[i].ATakeIn? && actions[j].ATakeIn? && actions[i].d == actions[j].d
    requires Commits(Run(s, actions[..i]), actions[i])
    ensures !Commits(Run(s, actions[..j]), actions[j])
  {
    hide Attempt, Good, IsProcessed;
    var m := Run(s, actions[..i]);
    RunKeepsGood(s, actions[..i]);
    assert IsProcessed(Exec(m, actions[i]), actions[i].d) by {
      CommittedIsProcessed(m, actions[i]);
    }
    RunSnoc(s, actions, i);
    RunSplit(s, actions[..j], i + 1);
    assert actions[..j][..i + 1] == actions[..i + 1];
    ProcessedStaysOnRuns(Exec(m, actions[i]), actions[..j][i + 1..], actions[i].d);
    ProcessedStays(Run(s, actions[..j]), actions[j], actions[i].d);
  }

  lemma CommittedIsProcessed(s: State, a: Action)
    requires Good(s) && a.ATakeIn? && Commits(s, a)
    ensures IsProcessed(Exec(s, a), a.d)
  {
    hide Attempt, Good;
    var arrivals := IntakeYard(s, a, Exec(s, a));
  }
}
