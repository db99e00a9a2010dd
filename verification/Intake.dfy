/** Taking a verified donation into a warehouse (app/features/donation_intake.py). */
module Intake {
  import opened Sums
  import opened Stock

  /** A form field after parsing: left empty, not parseable, or a value. */
  datatype Field<+T> = Blank | Malformed | Given(value: T)

  /** The form fields posted for one donated item. */
  datatype Entry = Entry(batchNo: Option<string>, batchDate: Field<int>, expiry: Field<int>, uom: Option<string>,
                         unitValue: Field<Qty>, usable: Field<Qty>, defective: Field<Qty>, expired: Field<Qty>)

  datatype Sheet = Sheet(intakeDate: Field<int>, comments: string, entries: map<int, Entry>)

  datatype DonatedItem = DonatedItem(item: int, qty: Qty)

  datatype DonationStatus = Entered | Verified | Processed

  datatype Donation = Donation(status: DonationStatus, items: seq<DonatedItem>)

  /** What the item page keeps of one item: its two flags and the version of the record. */
  datatype CatalogItem = CatalogItem(canExpire: bool, active: bool, version: int)

  type Catalog = map<int, CatalogItem>

  /** A validated item of the intake. */
  datatype Arrival = Arrival(item: int, batchNo: Option<string>, batchDate: Option<int>, expiry: Option<int>, uom: string,
                             usable: Qty, defective: Qty, expired: Qty)

  /** An empty quantity field counts as zero. */
  function Number(f: Field<Qty>): Qty {
    match f
    case Given(v) => v
    case _ => 0
  }

  function EntryTotal(e: Entry): Qty {
    Number(e.usable) + Number(e.defective) + Number(e.expired)
  }

  predicate EntryPasses(today: int, canExpire: bool, e: Entry) {
    && (e.batchNo.Some? <==> !e.batchDate.Blank?)
    && (e.batchNo.Some? ==> e.batchDate.Given? && e.batchDate.value <= today)
    && (canExpire ==> e.expiry.Given? && e.expiry.value >= today)
    && e.uom.Some?
    && !e.usable.Malformed? && !e.defective.Malformed? && !e.expired.Malformed?
    && Number(e.usable) > 0 && Number(e.defective) >= 0 && Number(e.expired) >= 0
    && e.unitValue.Given? && e.unitValue.value > 0
  }

  function ArrivalOf(item: int, canExpire: bool, e: Entry): Arrival {
    Arrival(item, e.batchNo,
            if e.batchNo.Some? && e.batchDate.Given? then Some(e.batchDate.value) else None,
            if canExpire && e.expiry.Given? then Some(e.expiry.value) else None,
            if e.uom.Some? then e.uom.value else "",
            Number(e.usable), Number(e.defective), Number(e.expired))
  }

  /** The quantity entered on the form for one column; a field that was left empty counts as zero. */
  function OnForm(e: Entry, c: Column): Qty {
    var f := match c
             case Usable => e.usable
             case Reserved => Blank
             case Defective => e.defective
             case Expired => e.expired;
    if f.Given? then f.value else 0
  }

  predicate NumberTaken(batches: map<int, Batch>, item: int, no: string) {
    exists id :: id in batches && batches[id].item == item && batches[id].batchNo == Some(no)
  }

  predicate CanExpire(catalog: Catalog, item: int) {
    item in catalog && catalog[item].canExpire
  }

  /** Everything `_process_intake_submission` checks about one donated item. */
  predicate DonatedPasses(batches: map<int, Batch>, catalog: Catalog, today: int, sheet: Sheet, d: DonatedItem) {
    && d.item in sheet.entries
    && var e := sheet.entries[d.item];
    && EntryPasses(today, CanExpire(catalog, d.item), e)
    && (e.batchNo.Some? ==> !NumberTaken(batches, d.item, e.batchNo.value))
    && EntryTotal(e) == d.qty
  }

  predicate SheetPasses(batches: map<int, Batch>, catalog: Catalog, today: int, sheet: Sheet, items: seq<DonatedItem>) {
    && sheet.intakeDate.Given? && sheet.intakeDate.value <= today
    && |sheet.comments| <= 255
    && forall j :: 0 <= j < |items| ==> DonatedPasses(batches, catalog, today, sheet, items[j])
  }

  /** The primary key of the donation items. */
  predicate DistinctItems(items: seq<DonatedItem>) {
    forall j, k :: 0 <= j < k < |items| ==> items[j].item != items[k].item
  }

  /** The stock table together with the next identity value of the batch table. */
  datatype Yard = Yard(stock: Stock, next: int)

  predicate Unnumbered(batches: map<int, Batch>, warehouse: int, item: int, id: int) {
    id in batches && batches[id].warehouse == warehouse && batches[id].item == item && batches[id].batchNo.None?
  }

  function NewBatch(warehouse: int, a: Arrival): Batch {
    Batch(a.item, warehouse, a.batchNo, a.batchDate, a.expiry, a.uom, true, a.usable, 0, a.defective, a.expired)
  }

  function Topped(b: Batch, a: Arrival): Batch {
    b.(usable := b.usable + a.usable, defective := b.defective + a.defective, expired := b.expired + a.expired)
  }

  function RowAfter(rows: map<Slot, Row>, s: Slot, a: Arrival): Row {
    if s in rows then
      var r := rows[s];
      r.(usable := r.usable + a.usable, defective := r.defective + a.defective, expired := r.expired + a.expired)
    else Row(true, a.usable, 0, a.defective, a.expired)
  }

  function Added(y: Yard, warehouse: int, a: Arrival): Yard {
    var s := Slot(warehouse, a.item);
    Yard(Stock(y.stock.batches[y.next := NewBatch(warehouse, a)], y.stock.rows[s := RowAfter(y.stock.rows, s, a)]),
         y.next + 1)
  }

  function ToppedUp(y: Yard, warehouse: int, a: Arrival, id: int): Yard
    requires id in y.stock.batches
  {
    var s := Slot(warehouse, a.item);
    Yard(Stock(y.stock.batches[id := Topped(y.stock.batches[id], a)], y.stock.rows[s := RowAfter(y.stock.rows, s, a)]),
         y.next)
  }

  /** One arrival: an unnumbered batch is topped up when there is one, otherwise a new batch is added. */
  ghost function ReceiveOne(y: Yard, warehouse: int, a: Arrival): Yard {
    if a.batchNo.None? && exists id :: Unnumbered(y.stock.batches, warehouse, a.item, id) then
      var id :| Unnumbered(y.stock.batches, warehouse, a.item, id);
      ToppedUp(y, warehouse, a, id)
    else Added(y, warehouse, a)
  }

  ghost function ReceiveAll(y: Yard, warehouse: int, arrivals: seq<Arrival>): Yard
    decreases |arrivals|
  {
    if arrivals == [] then y
    else
      var n := |arrivals| - 1;
      ReceiveOne(ReceiveAll(y, warehouse, arrivals[..n]), warehouse, arrivals[n])
  }

  function Arrivals(catalog: Catalog, sheet: Sheet, items: seq<DonatedItem>): seq<Arrival>
    requires forall j :: 0 <= j < |items| ==> items[j].item in sheet.entries
  {
    seq(|items|, j requires 0 <= j < |items| =>
      ArrivalOf(items[j].item, CanExpire(catalog, items[j].item), sheet.entries[items[j].item]))
  }

  // ---------------------------------------------------------------- what every intake keeps

  /** Batch numbers are unique per item, and a warehouse holds at most one unnumbered batch per item. */
  predicate Clash(a: Batch, b: Batch) {
    && a.item == b.item
    && a.batchNo == b.batchNo
    && (a.batchNo.None? ==> a.warehouse == b.warehouse)
  }

  ghost predicate Labelled(batches: map<int, Batch>) {
    forall x, y :: x in batches && y in batches && x != y ==> !Clash(batches[x], batches[y])
  }

  ghost predicate YardSound(y: Yard) {
    && Sound(y.stock)
    && forall id :: id in y.stock.batches ==> id < y.next
  }

  predicate ArrivalSound(a: Arrival) {
    0 <= a.usable && 0 <= a.defective && 0 <= a.expired
  }

  predicate ArrivalFits(batches: map<int, Batch>, a: Arrival) {
    a.batchNo.Some? ==> !NumberTaken(batches, a.item, a.batchNo.value)
  }

  function Gain(a: Arrival, c: Column): Qty {
    match c
    case Usable => a.usable
    case Reserved => 0
    case Defective => a.defective
    case Expired => a.expired
  }

  /** The batch an arrival tops up. */
  lemma TopTarget(y: Yard, warehouse: int, a: Arrival) returns (id: int)
    requires ReceiveOne(y, warehouse, a).next == y.next
    ensures Unnumbered(y.stock.batches, warehouse, a.item, id)
    ensures ReceiveOne(y, warehouse, a) == ToppedUp(y, warehouse, a, id)
  {
    id :| Unnumbered(y.stock.batches, warehouse, a.item, id) && ReceiveOne(y, warehouse, a) == ToppedUp(y, warehouse, a, id);
  }

  /** One arrival raises each column of its own warehouse row by its gain and leaves all other sums alone. */
  lemma ReceiveOneSums(y: Yard, warehouse: int, a: Arrival, s: Slot, c: Column)
    requires forall id :: id in y.stock.batches ==> id < y.next
    ensures var z := ReceiveOne(y, warehouse, a);
            ColumnSum(z.stock.batches, s, c)
            == ColumnSum(y.stock.batches, s, c) + if s == Slot(warehouse, a.item) then Gain(a, c) else 0
  {
    var z := ReceiveOne(y, warehouse, a);
    var before, after := ColumnOf(y.stock.batches, s, c), ColumnOf(z.stock.batches, s, c);
    if s == Slot(warehouse, a.item) {
      var id := y.next;
      if z.next == y.next {
        id := TopTarget(y, warehouse, a);
      }
      var v := z.stock.batches[id];
      assert after == before[id := Cell(v, c)];
      SumUpdate(before, id, Cell(v, c));
    } else {
      assert after == before;
    }
  }

  lemma ReceiveOneKeepsSound(y: Yard, warehouse: int, a: Arrival)
    requires YardSound(y) && ArrivalSound(a)
    ensures YardSound(ReceiveOne(y, warehouse, a))
  {
    var z := ReceiveOne(y, warehouse, a);
    var t := z.stock;
    var own := Slot(warehouse, a.item);
    forall id | id in t.batches ensures BatchSound(t, id) {
      assert id in y.stock.batches ==> BatchSound(y.stock, id);
    }
    forall s | s in t.rows ensures t.rows[s].active && Mirrored(t, s) {
      forall c: Column ensures RowCell(t.rows[s], c) == ColumnSum(t.batches, s, c) {
        ReceiveOneSums(y, warehouse, a, s, c);
        if s in y.stock.rows {
          assert Mirrored(y.stock, s);
        } else {
          forall id | id in y.stock.batches ensures SlotOf(y.stock.batches[id]) != s {
            assert BatchSound(y.stock, id);
          }
          assert ColumnOf(y.stock.batches, s, c) == map[];
        }
      }
    }
  }

  lemma ReceiveOneLabelled(y: Yard, warehouse: int, a: Arrival)
    requires Labelled(y.stock.batches) && ArrivalFits(y.stock.batches, a)
    requires forall id :: id in y.stock.batches ==> id < y.next
    ensures Labelled(ReceiveOne(y, warehouse, a).stock.batches)
    ensures forall item, no :: NumberTaken(ReceiveOne(y, warehouse, a).stock.batches, item, no)
              ==> NumberTaken(y.stock.batches, item, no) || (item == a.item && a.batchNo == Some(no))
  {
    var was, now := y.stock.batches, ReceiveOne(y, warehouse, a).stock.batches;
    forall p, q | p in now && q in now && p != q ensures !Clash(now[p], now[q]) {
      if p in was && q in was {
        assert !Clash(was[p], was[q]);
      } else if p in was {
        assert a.batchNo.None? ==> !Unnumbered(was, warehouse, a.item, p);
      } else {
        assert a.batchNo.None? ==> !Unnumbered(was, warehouse, a.item, q);
      }
    }
    forall item, no | NumberTaken(now, item, no)
      ensures NumberTaken(was, item, no) || (item == a.item && a.batchNo == Some(no))
    {
      var id :| id in now && now[id].item == item && now[id].batchNo == Some(no);
      if id in was {
        assert was[id].item == item && was[id].batchNo == Some(no);
      }
    }
  }

  /** A whole accepted sheet keeps the stock sound. */
  lemma {:induction false} ReceiveAllKeepsSound(y: Yard, warehouse: int, arrivals: seq<Arrival>)
    requires YardSound(y)
    requires forall j :: 0 <= j < |arrivals| ==> ArrivalSound(arrivals[j])
    ensures YardSound(ReceiveAll(y, warehouse, arrivals))
    decreases |arrivals|
  {
    if arrivals == [] {
    } else {
      var n := |arrivals| - 1;
      ReceiveAllKeepsSound(y, warehouse, arrivals[..n]);
      ReceiveOneKeepsSound(ReceiveAll(y, warehouse, arrivals[..n]), warehouse, arrivals[n]);
    }
  }

  /** A whole accepted sheet keeps the batch numbers unique. */
  lemma {:induction false} ReceiveAllKeepsLabels(y: Yard, warehouse: int, arrivals: seq<Arrival>)
    requires Labelled(y.stock.batches)
    requires forall id :: id in y.stock.batches ==> id < y.next
    requires forall j :: 0 <= j < |arrivals| ==> ArrivalFits(y.stock.batches, arrivals[j])
    requires forall j, k :: 0 <= j < k < |arrivals| ==> arrivals[j].item != arrivals[k].item
    ensures Labelled(ReceiveAll(y, warehouse, arrivals).stock.batches)
    ensures forall item, no :: NumberTaken(ReceiveAll(y, warehouse, arrivals).stock.batches, item, no)
              ==> NumberTaken(y.stock.batches, item, no) || exists j :: 0 <= j < |arrivals| && arrivals[j].item == item
    decreases |arrivals|
  {
    if arrivals == [] {
    } else {
      var n := |arrivals| - 1;
      hide ReceiveOne, Labelled, NumberTaken, Extends;
      var z := ReceiveAll(y, warehouse, arrivals[..n]);
      ReceiveAllKeepsLabels(y, warehouse, arrivals[..n]);
      ReceiveAllExtends(y, warehouse, arrivals[..n]);
      assert ArrivalFits(z.stock.batches, arrivals[n]) by {
        assert ArrivalFits(y.stock.batches, arrivals[n]);
        assert forall j :: 0 <= j < n ==> arrivals[..n][j].item != arrivals[n].item;
      }
      ReceiveOneLabelled(z, warehouse, arrivals[n]);
      var w := ReceiveAll(y, warehouse, arrivals);
      forall item, no | NumberTaken(w.stock.batches, item, no)
        ensures NumberTaken(y.stock.batches, item, no) || exists j :: 0 <= j < |arrivals| && arrivals[j].item == item
      {
        if NumberTaken(z.stock.batches, item, no) && !NumberTaken(y.stock.batches, item, no) {
          var j :| 0 <= j < n && arrivals[..n][j].item == item;
          assert arrivals[j].item == item;
        }
      }
    }
  }

  /** No intake moves, renames or removes a batch. */
  ghost predicate Extends(a: map<int, Batch>, b: map<int, Batch>) {
    forall id :: id in a ==> id in b && KeyOf(id, b[id]) == KeyOf(id, a[id]) && b[id].reserved == a[id].reserved
  }

  lemma {:induction false} ReceiveAllExtends(y: Yard, warehouse: int, arrivals: seq<Arrival>)
    requires forall id :: id in y.stock.batches ==> id < y.next
    ensures Extends(y.stock.batches, ReceiveAll(y, warehouse, arrivals).stock.batches)
    ensures y.next <= ReceiveAll(y, warehouse, arrivals).next
    ensures y.stock.rows.Keys <= ReceiveAll(y, warehouse, arrivals).stock.rows.Keys
    ensures forall j :: 0 <= j < |arrivals| ==>
              Slot(warehouse, arrivals[j].item) in ReceiveAll(y, warehouse, arrivals).stock.rows
    ensures forall id :: id in ReceiveAll(y, warehouse, arrivals).stock.batches
              ==> id < ReceiveAll(y, warehouse, arrivals).next
    ensures forall id :: id in ReceiveAll(y, warehouse, arrivals).stock.batches && id !in y.stock.batches
              ==> ReceiveAll(y, warehouse, arrivals).stock.batches[id].reserved == 0
    decreases |arrivals|
  {
    if arrivals == [] {
    } else {
      hide ReceiveOne;
      var n := |arrivals| - 1;
      ReceiveAllExtends(y, warehouse, arrivals[..n]);
      ReceiveOneExtends(ReceiveAll(y, warehouse, arrivals[..n]), warehouse, arrivals[n]);
      assert forall j :: 0 <= j < n ==> arrivals[..n][j] == arrivals[j];
    }
  }

  lemma ReceiveOneExtends(y: Yard, warehouse: int, a: Arrival)
    requires forall id :: id in y.stock.batches ==> id < y.next
    ensures var z := ReceiveOne(y, warehouse, a);
            && Extends(y.stock.batches, z.stock.batches)
            && y.next <= z.next
            && z.stock.rows.Keys == y.stock.rows.Keys + {Slot(warehouse, a.item)}
            && (forall id :: id in z.stock.batches ==> id < z.next)
            && (forall id :: id in z.stock.batches && id !in y.stock.batches ==> z.stock.batches[id].reserved == 0)
  {
  }

  /** What the checks on a sheet promise about the arrivals made from it. */
  /** The arrival carries what the form says, column by column, with the form's number, dates and unit. */
  ghost predicate ReadFrom(a: Arrival, e: Entry) {
    && (forall c: Column :: Gain(a, c) == OnForm(e, c))
    && a.batchNo == e.batchNo
    && (a.batchDate.Some? ==> e.batchDate == Given(a.batchDate.value))
    && (a.expiry.Some? ==> e.expiry == Given(a.expiry.value))
    && e.uom == Some(a.uom)
  }

  lemma SheetGivesSoundArrivals(batches: map<int, Batch>, catalog: Catalog, today: int, sheet: Sheet,
                                items: seq<DonatedItem>)
    requires SheetPasses(batches, catalog, today, sheet, items) && DistinctItems(items)
    ensures forall j :: 0 <= j < |items| ==> items[j].item in sheet.entries
    ensures var arrivals := Arrivals(catalog, sheet, items);
            && |arrivals| == |items|
            && (forall j :: 0 <= j < |items| ==>
                  && arrivals[j].item == items[j].item
                  && ArrivalSound(arrivals[j]) && ArrivalFits(batches, arrivals[j])
                  && 0 < arrivals[j].usable
                  && (arrivals[j].batchNo.Some? <==> arrivals[j].batchDate.Some?)
                  && (arrivals[j].batchDate.Some? ==> arrivals[j].batchDate.value <= today)
                  && (CanExpire(catalog, arrivals[j].item) <==> arrivals[j].expiry.Some?)
                  && (arrivals[j].expiry.Some? ==> arrivals[j].expiry.value >= today)
                  && arrivals[j].usable + arrivals[j].defective + arrivals[j].expired == items[j].qty
                  && ReadFrom(arrivals[j], sheet.entries[items[j].item]))
            && (forall j, k :: 0 <= j < k < |arrivals| ==> arrivals[j].item != arrivals[k].item)
  {
    forall j | 0 <= j < |items|
      ensures DonatedPasses(batches, catalog, today, sheet, items[j])
    {
    }
  }
}
