/** Automatic allocation meets the rest of the system: what it proposes is validated, within the request, and can
    be reserved. */
module AutoAllocation {
  import opened Sums
  import opened Stock
  import opened ItemStatuses
  import opened Filling
  import opened Allocation
  import opened Packaging
  import opened Reservations

  /** The form fields an automatic allocation fills in. */
  function DrawPicks(draws: seq<Draw>, item: int): map<Pick, Qty>
    decreases |draws|
  {
    if draws == [] then map[]
    else
      var n := |draws| - 1;
      DrawPicks(draws[..n], item)[Pick(item, draws[n].id) := draws[n].qty]
  }

  /** Every field stems from one batch of the list, with its positive fill. */
  lemma {:induction false} PickStems(list: seq<Held>, fills: seq<int>, item: int, p: Pick) returns (i: nat)
    requires |list| == |fills| && DistinctIds(list)
    requires p in DrawPicks(Draws(list, fills), item)
    ensures i < |list| && p == Pick(item, list[i].id) && DrawPicks(Draws(list, fills), item)[p] == fills[i] > 0
    decreases |list|
  {
    var n := |list| - 1;
    var front := Draws(list[..n], fills[..n]);
    if fills[n] > 0 {
      var d := Draw(list[n].id, list[n].batch.warehouse, fills[n]);
      assert (front + [d])[..|front|] == front;
      if p == Pick(item, list[n].id) {
        i := n;
      } else {
        i := PickStems(list[..n], fills[..n], item, p);
      }
    } else {
      assert front + [] == front;
      i := PickStems(list[..n], fills[..n], item, p);
    }
  }

  /** The fields together hold what the filling draws. */
  lemma {:induction false} PicksTotal(list: seq<Held>, fills: seq<int>, item: int)
    requires |list| == |fills| && DistinctIds(list)
    requires forall i :: 0 <= i < |fills| ==> 0 <= fills[i]
    ensures Sum(DrawPicks(Draws(list, fills), item)) == Total(fills)
    decreases |list|
  {
    if list == [] {
    } else {
      var n := |list| - 1;
      var front := Draws(list[..n], fills[..n]);
      PicksTotal(list[..n], fills[..n], item);
      assert fills[..n] + [fills[n]] == fills;
      TotalSnoc(fills[..n], fills[n]);
      if fills[n] > 0 {
        var p := Pick(item, list[n].id);
        var d := Draw(list[n].id, list[n].batch.warehouse, fills[n]);
        assert (front + [d])[..|front|] == front;
        if p in DrawPicks(front, item) {
          var i := PickStems(list[..n], fills[..n], item, p);
          assert false;
        }
        SumUpdate(DrawPicks(front, item), p, fills[n]);
      } else {
        assert front + [] == front;
      }
    }
  }

  ghost function AutoForm(list: seq<Held>, it: Item, today: int, want: Qty, item: int): Form {
    Form(DrawPicks(AutoDraws(SortByRule(list, it, today), want), item), map[])
  }

  /** The batches of the sorted list are the live ones of the query, each once. */
  lemma RuleListFacts(list: seq<Held>, it: Item, today: int)
    requires DistinctIds(list)
    ensures DistinctIds(SortByRule(list, it, today))
    ensures forall h :: h in SortByRule(list, it, today) <==> h in list && IsLive(h, it.canExpire, today)
  {
    LiveSelects(list, it.canExpire, today);
    SortKeepsDistinct(OrderOf(it), Live(list, it.canExpire, today));
  }

  /** The batch behind a proposed line, and the quantity proposed for it. */
  lemma LineStems(st: Stock, open: set<int>, item: int, warehouse: Option<int>, uom: Option<string>, list: seq<Held>,
                  it: Item, today: int, want: Qty, p: Pick) returns (h: Held)
    requires Answers(st, open, item, warehouse, uom, list)
    requires p in AutoForm(list, it, today, want, item).picks
    ensures p == Pick(item, h.id) && h in list && IsLive(h, it.canExpire, today)
    ensures IsAvailable(st, open, item, warehouse, uom, h)
    ensures 0 < AutoForm(list, it, today, want, item).picks[p] <= Available(h)
  {
    hide IsAvailable, IsLive, SortByRule;
    var sorted := SortByRule(list, it, today);
    RuleListFacts(list, it, today);
    var i := PickStems(sorted, Fill(Avails(sorted), want), item, p);
    h := sorted[i];
    assert h in sorted;
    assert 0 <= Available(h) by {
      assert IsAvailable(st, open, item, warehouse, uom, h);
      LiveIsPositive(h, it.canExpire, today);
    }
    FillWithin(Avails(sorted), want, i);
  }

  lemma LiveIsPositive(h: Held, canExpire: bool, today: int)
    requires IsLive(h, canExpire, today)
    ensures 0 < Available(h)
  {
  }

  /** A proposed line passes validation for a fresh package if and only if its batch is not past its expiry
      date. The sort drops expired batches only for items that can expire. */
  lemma AutoLineValidIff(st: Stock, open: set<int>, item: int, warehouse: Option<int>, uom: Option<string>, list: seq<Held>,
                         it: Item, today: int, want: Qty, p: Pick)
    requires Answers(st, open, item, warehouse, uom, list)
    requires p in AutoForm(list, it, today, want, item).picks
    ensures p.batch in st.batches
    ensures var e := st.batches[p.batch].expiry;
            PickPasses(st.batches, today, map[], p, AutoForm(list, it, today, want, item).picks[p])
            <==> (e.Some? ==> e.value >= today)
    ensures it.canExpire ==> PickPasses(st.batches, today, map[], p, AutoForm(list, it, today, want, item).picks[p])
  {
    hide SortByRule, AutoDraws, DrawPicks;
    var h := LineStems(st, open, item, warehouse, uom, list, it, today, want, p);
  }

  lemma AutoTotal(list: seq<Held>, it: Item, today: int, want: Qty, item: int)
    requires DistinctIds(list) && 0 <= want
    ensures PickedTotal(AutoForm(list, it, today, want, item), item)
            == Min(want, Total(Avails(SortByRule(list, it, today))))
  {
    hide SortByRule;
    var sorted := SortByRule(list, it, today);
    var fills := Fill(Avails(sorted), want);
    var form := AutoForm(list, it, today, want, item);
    RuleListFacts(list, it, today);
    forall i | 0 <= i < |fills| ensures 0 <= fills[i] {
      FillWithin(Avails(sorted), want, i);
    }
    PicksTotal(sorted, fills, item);
    forall p | p in form.picks ensures p.item == item {
      var i := PickStems(sorted, fills, item, p);
    }
    assert PicksOf(form.picks, item) == form.picks;
    AllocatesAllItCan(list, it, today, want);
  }

  /** Automatic allocation of one item is accepted: from a sound table in which only expirable items carry expiry
      dates, every proposed line of a fresh package is valid, the total is within the request, and the
      reservation succeeds. `AutoSave` carries this on to whole forms and saved drafts. */
  lemma AutoAllocationAccepted(st: Stock, open: set<int>, item: int, warehouse: Option<int>, uom: Option<string>,
                               list: seq<Held>, it: Item, today: int, want: Qty)
    requires Sound(st) && 0 <= want
    requires Answers(st, open, item, warehouse, uom, list)
    requires !it.canExpire ==> forall id :: id in st.batches && st.batches[id].item == item ==> st.batches[id].expiry.None?
    ensures var form := AutoForm(list, it, today, want, item);
            && (forall p :: p in form.picks ==> p.item == item && PickPasses(st.batches, today, map[], p, form.picks[p]))
            && WithinLimit(PickedTotal(form, item), want)
            && Reserve(st, map[], Positive(LinesAfter(st.batches, {item}, form))).Some?
  {
    var form := AutoForm(list, it, today, want, item);
    assert DistinctIds(list);
    hide AutoForm, Answers, Sound;
    AutoTotal(list, it, today, want, item);
    forall p | p in form.picks
      ensures p.item == item && PickPasses(st.batches, today, map[], p, form.picks[p])
    {
      var h := LineStems(st, open, item, warehouse, uom, list, it, today, want, p);
      AutoLineValidIff(st, open, item, warehouse, uom, list, it, today, want, p);
    }
    ValidPicksReserve(st, today, item, form);
  }

  lemma ValidPicksReserve(st: Stock, today: int, item: int, form: Form)
    requires Sound(st)
    requires forall p :: p in form.picks ==> p.item == item && PickPasses(st.batches, today, map[], p, form.picks[p])
    ensures Reserve(st, map[], Positive(LinesAfter(st.batches, {item}, form))).Some?
  {
    var n := Positive(LinesAfter(st.batches, {item}, form));
    forall k | k in n ensures Found(st.batches, k) && KeyPasses(st.batches, map[], n, k) {
      var p := Pick(k.item, k.batch);
      assert p in form.picks && LineFor(st.batches, p) == k;
      assert PickPasses(st.batches, today, map[], p, form.picks[p]);
    }
    ReserveSucceedsIff(st, map[], n);
  }
}
