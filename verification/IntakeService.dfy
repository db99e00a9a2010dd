/** The checks of an intake sheet, and the search for the batch an unnumbered arrival joins. */
module IntakeService {
  import opened Sums
  import opened Stock
  import opened Intake

  /** The query for the unnumbered batch of an item in a warehouse. */
  method FindUnnumbered(batches: map<int, Batch>, warehouse: int, item: int) returns (found: Option<int>)
    ensures found.Some? ==> Unnumbered(batches, warehouse, item, found.value)
    ensures found.None? ==> forall id :: !Unnumbered(batches, warehouse, item, id)
  {
    var todo := batches.Keys;
    while todo != {}
      invariant todo <= batches.Keys
      invariant forall id :: id in batches && id !in todo ==> !Unnumbered(batches, warehouse, item, id)
      decreases todo
    {
      var id := AnyOf(todo);
      if Unnumbered(batches, warehouse, item, id) {
        return Some(id);
      }
      todo := todo - {id};
    }
    return None;
  }

  lemma UnnumberedIsUnique(y: Yard, warehouse: int, a: Arrival, id: int)
    requires Labelled(y.stock.batches) && a.batchNo.None? && Unnumbered(y.stock.batches, warehouse, a.item, id)
    ensures ReceiveOne(y, warehouse, a) == ToppedUp(y, warehouse, a, id)
  {
    var x :| Unnumbered(y.stock.batches, warehouse, a.item, x) && ReceiveOne(y, warehouse, a) == ToppedUp(y, warehouse, a, x);
    if x != id {
      assert Unnumbered(y.stock.batches, warehouse, a.item, x);
      assert Clash(y.stock.batches[x], y.stock.batches[id]);
    }
  }

  predicate ReadsWell(catalog: Catalog, today: int, sheet: Sheet, d: DonatedItem) {
    d.item in sheet.entries && EntryPasses(today, CanExpire(catalog, d.item), sheet.entries[d.item])
  }

  /** The fields of one donated item, read and checked in the order of the form. */
  method ReadEntry(item: int, canExpire: bool, today: int, e: Entry) returns (ok: bool, arrival: Arrival, total: Qty)
    ensures ok <==> EntryPasses(today, canExpire, e)
    ensures ok ==> arrival == ArrivalOf(item, canExpire, e) && total == EntryTotal(e)
  {
    arrival, total := Arrival(item, None, None, None, "", 0, 0, 0), 0;
    if e.batchNo.Some? && e.batchDate.Blank? {
      return false, arrival, total;
    }
    if e.batchNo.None? && !e.batchDate.Blank? {
      return false, arrival, total;
    }
    var batchDate := None;
    if e.batchNo.Some? {
      if !e.batchDate.Given? || e.batchDate.value > today {
        return false, arrival, total;
      }
      batchDate := Some(e.batchDate.value);
    }
    var expiry := None;
    if canExpire {
      if !e.expiry.Given? || e.expiry.value < today {
        return false, arrival, total;
      }
      expiry := Some(e.expiry.value);
    }
    if e.uom.None? {
      return false, arrival, total;
    }
    if e.usable.Malformed? || e.defective.Malformed? || e.expired.Malformed? {
      return false, arrival, total;
    }
    var usable := if e.usable.Given? then e.usable.value else 0;
    var defective := if e.defective.Given? then e.defective.value else 0;
    var expired := if e.expired.Given? then e.expired.value else 0;
    if usable < 0 || defective < 0 || expired < 0 {
      return false, arrival, total;
    }
    if usable == 0 {
      return false, arrival, total;
    }
    if !e.unitValue.Given? || e.unitValue.value <= 0 {
      return false, arrival, total;
    }
    return true, Arrival(item, e.batchNo, batchDate, expiry, e.uom.value, usable, defective, expired), usable + defective + expired;
  }

  /** The first validation loop: read every donated item's fields, count the errors, and keep the totals. */
  method ReadEntries(catalog: Catalog, today: int, sheet: Sheet, items: seq<DonatedItem>)
    returns (errors: nat, arrivals: seq<Arrival>, totals: map<int, Qty>)
    requires DistinctItems(items)
    ensures errors == 0 <==> forall j :: 0 <= j < |items| ==> ReadsWell(catalog, today, sheet, items[j])
    ensures errors == 0 ==> arrivals == Arrivals(catalog, sheet, items)
    ensures errors == 0 ==> forall j :: 0 <= j < |items| ==>
              items[j].item in totals && totals[items[j].item] == EntryTotal(sheet.entries[items[j].item])
  {
    hide EntryPasses, ArrivalOf, EntryTotal, CanExpire;
    errors, arrivals, totals := 0, [], map[];
    for i := 0 to |items|
      invariant errors == 0 <==> forall j :: 0 <= j < i ==> ReadsWell(catalog, today, sheet, items[j])
      invariant errors == 0 ==> |arrivals| == i
      invariant errors == 0 ==> forall j :: 0 <= j < i ==>
        arrivals[j] == ArrivalOf(items[j].item, CanExpire(catalog, items[j].item), sheet.entries[items[j].item])
      invariant errors == 0 ==> forall j :: 0 <= j < i ==>
        items[j].item in totals && totals[items[j].item] == EntryTotal(sheet.entries[items[j].item])
      invariant forall k :: i <= k < |items| ==> items[k].item !in totals
    {
      var item := items[i].item;
      if item !in sheet.entries {
        errors := errors + 1;
      } else {
        var ok, arrival, total := ReadEntry(item, CanExpire(catalog, item), today, sheet.entries[item]);
        if !ok {
          errors := errors + 1;
        } else {
          if item !in totals {
            totals := totals[item := 0];
          }
          totals := totals[item := totals[item] + total];
          arrivals := arrivals + [arrival];
        }
      }
    }
  }

  predicate Numbered(a: Arrival, item: int, no: string) {
    a.item == item && a.batchNo == Some(no)
  }

  predicate SameNumber(a: Arrival, b: Arrival) {
    b.batchNo.Some? && Numbered(a, b.item, b.batchNo.value)
  }

  /** Batch numbers used twice for one item in one submission. */
  method CountDuplicates(arrivals: seq<Arrival>) returns (errors: nat)
    ensures errors == 0 <==> forall j, k :: 0 <= j < k < |arrivals| ==> !SameNumber(arrivals[j], arrivals[k])
  {
    errors := 0;
    var seen: set<(int, string)> := {};
    for i := 0 to |arrivals|
      invariant errors == 0 <==> forall j, k :: 0 <= j < k < i ==> !SameNumber(arrivals[j], arrivals[k])
      invariant forall x :: x in seen <==> exists j :: 0 <= j < i && Numbered(arrivals[j], x.0, x.1)
    {
      if arrivals[i].batchNo.Some? {
        var key := (arrivals[i].item, arrivals[i].batchNo.value);
        if key in seen {
          ghost var j :| 0 <= j < i && Numbered(arrivals[j], key.0, key.1);
          assert SameNumber(arrivals[j], arrivals[i]);
          errors := errors + 1;
        }
        assert Numbered(arrivals[i], key.0, key.1);
        seen := seen + {key};
      }
    }
  }

  /** Batch numbers that the item already has somewhere. */
  method CountTaken(batches: map<int, Batch>, arrivals: seq<Arrival>) returns (errors: nat)
    ensures errors == 0 <==> forall j :: 0 <= j < |arrivals| ==> ArrivalFits(batches, arrivals[j])
  {
    errors := 0;
    for i := 0 to |arrivals|
      invariant errors == 0 <==> forall j :: 0 <= j < i ==> ArrivalFits(batches, arrivals[j])
    {
      if !ArrivalFits(batches, arrivals[i]) {
        errors := errors + 1;
      }
    }
  }

  /** Totals that differ from the donated quantity, or are missing. */
  method CountMismatches(items: seq<DonatedItem>, totals: map<int, Qty>) returns (errors: nat)
    ensures errors == 0 <==> forall j :: 0 <= j < |items| ==> items[j].item in totals && totals[items[j].item] == items[j].qty
  {
    errors := 0;
    for i := 0 to |items|
      invariant errors == 0 <==>
        forall j :: 0 <= j < i ==> items[j].item in totals && totals[items[j].item] == items[j].qty
    {
      if (if items[i].item in totals then totals[items[i].item] else 0) != items[i].qty {
        errors := errors + 1;
      }
      if items[i].item !in totals {
        errors := errors + 1;
      }
    }
  }

  /** All checks of `_process_intake_submission`: no error exactly when the sheet passes. */
  method ValidateSheet(batches: map<int, Batch>, catalog: Catalog, today: int, sheet: Sheet, items: seq<DonatedItem>)
    returns (errors: nat, arrivals: seq<Arrival>)
    requires DistinctItems(items)
    ensures errors == 0 <==> SheetPasses(batches, catalog, today, sheet, items)
    ensures errors == 0 ==> arrivals == Arrivals(catalog, sheet, items)
  {
    errors := 0;
    if !sheet.intakeDate.Given? || sheet.intakeDate.value > today {
      errors := errors + 1;
    }
    if |sheet.comments| > 255 {
      errors := errors + 1;
    }
    ghost var header := errors == 0;
    var unread, list, totals := ReadEntries(catalog, today, sheet, items);
    arrivals := list;
    var duplicates := CountDuplicates(arrivals);
    var taken := CountTaken(batches, arrivals);
    var mismatches := CountMismatches(items, totals);
    if unread == 0 {
      SheetByParts(batches, catalog, today, sheet, items, arrivals, totals);
    }
    errors := errors + unread + duplicates + taken + mismatches;
  }

  lemma SheetByParts(batches: map<int, Batch>, catalog: Catalog, today: int, sheet: Sheet, items: seq<DonatedItem>,
                     arrivals: seq<Arrival>, totals: map<int, Qty>)
    requires DistinctItems(items)
    requires forall j :: 0 <= j < |items| ==> items[j].item in sheet.entries
    requires forall j :: 0 <= j < |items| ==> ReadsWell(catalog, today, sheet, items[j])
    requires arrivals == Arrivals(catalog, sheet, items)
    requires forall j :: 0 <= j < |items| ==>
               items[j].item in totals && totals[items[j].item] == EntryTotal(sheet.entries[items[j].item])
    ensures (forall j :: 0 <= j < |items| ==> DonatedPasses(batches, catalog, today, sheet, items[j]))
            <==> (forall j :: 0 <= j < |arrivals| ==> ArrivalFits(batches, arrivals[j]))
                 && (forall j :: 0 <= j < |items| ==> items[j].item in totals && totals[items[j].item] == items[j].qty)
    ensures forall j, k :: 0 <= j < k < |arrivals| ==> arrivals[j].item != arrivals[k].item
  {
    hide EntryPasses, EntryTotal, CanExpire, NumberTaken;
    forall j | 0 <= j < |items|
      ensures DonatedPasses(batches, catalog, today, sheet, items[j])
              <==> ArrivalFits(batches, arrivals[j]) && totals[items[j].item] == items[j].qty
    {
      assert ReadsWell(catalog, today, sheet, items[j]);
      assert arrivals[j].item == items[j].item && arrivals[j].batchNo == sheet.entries[items[j].item].batchNo;
    }
  }
}
