/** The pick-order check of the batch drawer (static/js/batch-allocation.js). */
module PickOrder {
  import opened Sums
  import opened Stock
  import opened Filling
  import opened Allocation
  import opened Drawer

  /** A batch element of the drawer: its priority group, what it offers, and what is entered for it. */
  datatype PickRow = PickRow(group: int, available: Qty, entered: Qty)

  /** Sums over the rows of one group, and over the rows of all groups before it. */
  function AvailableIn(rows: seq<PickRow>, g: int): Qty {
    if rows == [] then 0 else AvailableIn(rows[1..], g) + if rows[0].group == g then rows[0].available else 0
  }

  function EnteredIn(rows: seq<PickRow>, g: int): Qty {
    if rows == [] then 0 else EnteredIn(rows[1..], g) + if rows[0].group == g then rows[0].entered else 0
  }

  function AvailableBefore(rows: seq<PickRow>, g: int): Qty {
    if rows == [] then 0 else AvailableBefore(rows[1..], g) + if rows[0].group < g then rows[0].available else 0
  }

  function EnteredBefore(rows: seq<PickRow>, g: int): Qty {
    if rows == [] then 0 else EnteredBefore(rows[1..], g) + if rows[0].group < g then rows[0].entered else 0
  }

  function EnteredTotal(rows: seq<PickRow>): Qty {
    if rows == [] then 0 else EnteredTotal(rows[1..]) + rows[0].entered
  }

  predicate LaterEntry(rows: seq<PickRow>, g: int) {
    exists i :: 0 <= i < |rows| && rows[i].group > g && rows[i].entered > 0
  }

  predicate GroupPasses(rows: seq<PickRow>, g: int) {
    LaterEntry(rows, g) ==> EnteredIn(rows, g) >= AvailableIn(rows, g)
  }

  /** `validatePickOrder` finds no violation. */
  predicate InOrder(rows: seq<PickRow>) {
    forall i :: 0 <= i < |rows| ==> GroupPasses(rows, rows[i].group)
  }

  /** No entry is negative or beyond what its batch offers. */
  predicate Bounded(rows: seq<PickRow>) {
    forall i :: 0 <= i < |rows| ==> 0 <= rows[i].entered <= rows[i].available
  }

  /** What greedy filling of the same total gives a group. */
  function GreedyIn(rows: seq<PickRow>, g: int): Qty {
    Max(0, Min(AvailableIn(rows, g), EnteredTotal(rows) - AvailableBefore(rows, g)))
  }

  predicate MatchesGreedy(rows: seq<PickRow>) {
    forall i :: 0 <= i < |rows| ==> EnteredIn(rows, rows[i].group) == GreedyIn(rows, rows[i].group)
  }

  // ---------------------------------------------------------------- sums of bounded rows

  lemma {:induction false} SumsBounded(rows: seq<PickRow>, g: int)
    requires Bounded(rows)
    ensures 0 <= EnteredIn(rows, g) <= AvailableIn(rows, g)
    ensures 0 <= EnteredBefore(rows, g) <= AvailableBefore(rows, g)
    ensures EnteredBefore(rows, g) + EnteredIn(rows, g) <= EnteredTotal(rows)
    ensures !LaterEntry(rows, g) ==> EnteredBefore(rows, g) + EnteredIn(rows, g) == EnteredTotal(rows)
    decreases |rows|
  {
    if rows == [] {
    } else {
      SumsBounded(rows[1..], g);
      if LaterEntry(rows[1..], g) {
        var i :| 0 <= i < |rows[1..]| && rows[1..][i].group > g && rows[1..][i].entered > 0;
        assert rows[i + 1].group > g && rows[i + 1].entered > 0;
      }
    }
  }

  /** A later group starts after everything in an earlier one. */
  lemma {:induction false} BeforeGrows(rows: seq<PickRow>, g: int, later: int)
    requires Bounded(rows) && g < later
    ensures AvailableBefore(rows, g) + AvailableIn(rows, g) <= AvailableBefore(rows, later)
    decreases |rows|
  {
    if rows == [] {
    } else {
      BeforeGrows(rows[1..], g, later);
    }
  }

  /** If a group's entries reach what it offers, every batch of the group is used up. */
  lemma {:induction false} FullGroup(rows: seq<PickRow>, g: int, i: nat)
    requires Bounded(rows) && i < |rows| && rows[i].group == g
    requires EnteredIn(rows, g) >= AvailableIn(rows, g)
    ensures rows[i].entered == rows[i].available
    decreases |rows|
  {
    SumsBounded(rows[1..], g);
    if i > 0 {
      FullGroup(rows[1..], g, i - 1);
    }
  }

  /** If all batches of earlier groups are used up, so are the earlier groups. */
  lemma {:induction false} FullBefore(rows: seq<PickRow>, g: int)
    requires forall i :: 0 <= i < |rows| && rows[i].group < g ==> rows[i].entered == rows[i].available
    ensures EnteredBefore(rows, g) == AvailableBefore(rows, g)
    decreases |rows|
  {
    if rows == [] {
    } else {
      FullBefore(rows[1..], g);
    }
  }

  lemma {:induction false} SomeEntry(rows: seq<PickRow>, g: int) returns (i: nat)
    requires Bounded(rows) && EnteredIn(rows, g) > 0
    ensures i < |rows| && rows[i].group == g && rows[i].entered > 0
    decreases |rows|
  {
    if rows[0].group == g && rows[0].entered > 0 {
      i := 0;
    } else {
      i := SomeEntry(rows[1..], g);
      i := i + 1;
    }
  }

  lemma {:induction false} EntryCounts(rows: seq<PickRow>, i: nat)
    requires Bounded(rows) && i < |rows|
    ensures rows[i].entered <= EnteredIn(rows, rows[i].group)
    decreases |rows|
  {
    SumsBounded(rows[1..], rows[i].group);
    if i > 0 {
      EntryCounts(rows[1..], i - 1);
    }
  }

  // ---------------------------------------------------------------- the characterisation

  /** In an accepted drawer, an entry in a group means that everything before the group is used up. */
  lemma EarlierGroupsFull(rows: seq<PickRow>, g: int, i: nat)
    requires Bounded(rows) && InOrder(rows)
    requires i < |rows| && rows[i].group >= g && rows[i].entered > 0
    ensures EnteredBefore(rows, g) == AvailableBefore(rows, g)
  {
    forall k | 0 <= k < |rows| && rows[k].group < g ensures rows[k].entered == rows[k].available {
      assert GroupPasses(rows, rows[k].group);
      assert LaterEntry(rows, rows[k].group);
      FullGroup(rows, rows[k].group, k);
    }
    FullBefore(rows, g);
  }

  lemma InOrderMatches(rows: seq<PickRow>, i: nat)
    requires Bounded(rows) && InOrder(rows) && i < |rows|
    ensures EnteredIn(rows, rows[i].group) == GreedyIn(rows, rows[i].group)
  {
    var g := rows[i].group;
    SumsBounded(rows, g);
    assert GroupPasses(rows, g);
    if LaterEntry(rows, g) {
      var j :| 0 <= j < |rows| && rows[j].group > g && rows[j].entered > 0;
      EarlierGroupsFull(rows, g, j);
    } else if EnteredIn(rows, g) > 0 {
      var j := SomeEntry(rows, g);
      EarlierGroupsFull(rows, g, j);
    }
  }

  lemma MatchingIsInOrder(rows: seq<PickRow>, i: nat)
    requires Bounded(rows) && MatchesGreedy(rows) && i < |rows|
    ensures GroupPasses(rows, rows[i].group)
  {
    var g := rows[i].group;
    if LaterEntry(rows, g) {
      var j :| 0 <= j < |rows| && rows[j].group > g && rows[j].entered > 0;
      EntryCounts(rows, j);
      BeforeGrows(rows, g, rows[j].group);
      SumsBounded(rows, g);
      assert EnteredIn(rows, rows[j].group) == GreedyIn(rows, rows[j].group);
      assert EnteredIn(rows, g) == GreedyIn(rows, g);
    }
  }

  /** Pick order characterised: entries within what the batches offer are accepted if and only if every priority
      group gets exactly what greedy filling of the same total would give it. */
  lemma InOrderIffGreedy(rows: seq<PickRow>)
    requires Bounded(rows)
    ensures InOrder(rows) <==> MatchesGreedy(rows)
  {
    if InOrder(rows) {
      forall i | 0 <= i < |rows| ensures EnteredIn(rows, rows[i].group) == GreedyIn(rows, rows[i].group) {
        InOrderMatches(rows, i);
      }
    }
    if MatchesGreedy(rows) {
      forall i | 0 <= i < |rows| ensures GroupPasses(rows, rows[i].group) {
        MatchingIsInOrder(rows, i);
      }
    }
  }

  // ---------------------------------------------------------------- greedy filling passes

  /** The drawer's rows for a list of batches, with the groups the server assigned and the given entries. */
  function RowsOf(ask: Ask, list: seq<Held>, entries: seq<int>): seq<PickRow>
    requires |list| == |entries|
  {
    seq(|list|, i requires 0 <= i < |list| =>
      PickRow(Priorities(ask.item, list)[i], Effective(ask, list[i]), entries[i]))
  }

  lemma {:induction false} GroupIsUsedUp(rows: seq<PickRow>, g: int)
    requires forall i :: 0 <= i < |rows| && rows[i].group == g ==> rows[i].entered == rows[i].available
    ensures EnteredIn(rows, g) == AvailableIn(rows, g)
    decreases |rows|
  {
    if rows == [] {
    } else {
      GroupIsUsedUp(rows[1..], g);
    }
  }

  /** The check row by row: no entry in a later group while a row of an earlier group has something left. */
  lemma InOrderByRows(rows: seq<PickRow>)
    requires Bounded(rows)
    ensures InOrder(rows)
            <==> forall i, j :: 0 <= i < |rows| && 0 <= j < |rows| && rows[i].group < rows[j].group && rows[j].entered > 0
                   ==> rows[i].entered == rows[i].available
  {
    if InOrder(rows) {
      forall i, j | 0 <= i < |rows| && 0 <= j < |rows| && rows[i].group < rows[j].group && rows[j].entered > 0
        ensures rows[i].entered == rows[i].available
      {
        assert GroupPasses(rows, rows[i].group);
        FullGroup(rows, rows[i].group, i);
      }
    }
    if forall i, j :: 0 <= i < |rows| && 0 <= j < |rows| && rows[i].group < rows[j].group && rows[j].entered > 0
         ==> rows[i].entered == rows[i].available {
      forall i | 0 <= i < |rows| ensures GroupPasses(rows, rows[i].group) {
        if LaterEntry(rows, rows[i].group) {
          GroupIsUsedUp(rows, rows[i].group);
        }
      }
    }
  }

  /** The dates change somewhere from one batch of the list to a later one. */
  ghost predicate DatesChange(item: Item, list: seq<Held>, i: nat, j: nat)
    requires i <= j < |list|
  {
    exists k :: i <= k <= j && !SameDates(item, list[k], list[i])
  }

  /** The check in terms of dates and stock: entries within the offers are accepted if and only if nothing is taken
      from a batch while one before it in the list, from which the dates have changed since, has any stock left. */
  lemma AcceptedInDates(ask: Ask, list: seq<Held>, entries: seq<int>)
    requires |list| == |entries| && forall i :: 0 <= i < |list| ==> 0 <= entries[i] <= Effective(ask, list[i])
    ensures InOrder(RowsOf(ask, list, entries))
            <==> forall i, j :: 0 <= i < j < |list| && entries[j] > 0 && DatesChange(ask.item, list, i, j)
                   ==> entries[i] == Effective(ask, list[i])
  {
    hide InOrder, SameDates, Effective;
    var rows := RowsOf(ask, list, entries);
    InOrderByRows(rows);
    forall i, j | 0 <= i < |list| && 0 <= j < |list|
      ensures rows[i].group < rows[j].group <==> i < j && DatesChange(ask.item, list, i, j)
    {
      if i <= j {
        PrioritiesAreRuns(ask.item, list, i, j);
        assert i == j ==> rows[i].group == rows[j].group;
      } else {
        PrioritiesAreRuns(ask.item, list, j, i);
      }
    }
  }

  /** Every greedy allocation of any demand over any list, in the list's own order, passes the check. */
  lemma GreedyPasses(ask: Ask, list: seq<Held>, want: Qty)
    requires AllPositive(ask, list)
    ensures var rows := RowsOf(ask, list, Fill(Effectives(ask, list), want));
            Bounded(rows) && InOrder(rows) && MatchesGreedy(rows)
  {
    var es := Effectives(ask, list);
    var fills := Fill(es, want);
    var rows := RowsOf(ask, list, fills);
    forall i | 0 <= i < |rows| ensures 0 <= rows[i].entered <= rows[i].available {
      FillWithin(es, want, i);
    }
    forall i | 0 <= i < |rows| ensures GroupPasses(rows, rows[i].group) {
      var g := rows[i].group;
      if LaterEntry(rows, g) {
        var j :| 0 <= j < |rows| && rows[j].group > g && rows[j].entered > 0;
        forall k | 0 <= k < |rows| && rows[k].group == g ensures rows[k].entered == rows[k].available {
          if j <= k {
            PrioritiesAreRuns(ask.item, list, j, k);
          }
          EarlierAreExhausted(es, want, k, j);
        }
        GroupIsUsedUp(rows, g);
      }
    }
    InOrderIffGreedy(rows);
  }

  // ---------------------------------------------------------------- the drawer object

  /** A batch element shown in the drawer. */
  datatype Element = Element(id: int, group: int, available: Qty)

  /** What is entered for a batch. */
  function EntryOf(allocations: map<int, Qty>, id: int): Qty {
    if id in allocations then allocations[id] else 0
  }

  /** Changing the entry of one batch moves the total by the difference. */
  lemma EntrySums(was: map<int, Qty>, now: map<int, Qty>, id: int)
    requires forall x :: x in was ==> 0 < was[x]
    requires forall x :: x in now ==> 0 < now[x]
    requires forall x :: x != id ==> EntryOf(now, x) == EntryOf(was, x)
    ensures Sum(now) == Sum(was) - EntryOf(was, id) + EntryOf(now, id)
  {
    forall x ensures x in now - {id} <==> x in was - {id} {
      assert x != id ==> EntryOf(now, x) == EntryOf(was, x);
    }
    forall x | x in now - {id} ensures now[x] == was[x] {
      assert EntryOf(now, x) == EntryOf(was, x);
    }
    assert now - {id} == was - {id};
    TakeOut(now, id);
    TakeOut(was, id);
  }

  lemma TakeOut(m: map<int, Qty>, id: int)
    ensures Sum(m) == Sum(m - {id}) + EntryOf(m, id)
  {
    if id in m {
      SumRemove(m, id);
    } else {
      assert m - {id} == m;
    }
  }

  class BatchDrawer {
    var elements: seq<Element>
    var allocations: map<int, Qty>
    var requested: Qty

    constructor (elements: seq<Element>, requested: Qty)
      ensures this.elements == elements && this.requested == requested && allocations == map[]
    {
      this.elements, this.requested, allocations := elements, requested, map[];
    }

    /** Only positive entries are kept. */
    ghost predicate Valid()
      reads this
    {
      forall id :: id in allocations ==> 0 < allocations[id]
    }

    /** No entry for a batch on display exceeds what it offers. */
    ghost predicate WithinOffers()
      reads this
    {
      forall i :: 0 <= i < |elements| && elements[i].id in allocations ==> allocations[elements[i].id] <= elements[i].available
    }

    function Entry(id: int): Qty
      reads this
    {
      EntryOf(allocations, id)
    }

    function Rows(): seq<PickRow>
      reads this
    {
      seq(|elements|, i requires 0 <= i < |elements| reads this =>
        PickRow(elements[i].group, elements[i].available, Entry(elements[i].id)))
    }

    /** The input handler: clamp to what the batch offers and to zero, then record or forget the entry. */
    method Enter(e: Element, typed: Option<Qty>)
      requires e in elements
      requires forall i, j :: 0 <= i < j < |elements| ==> elements[i].id != elements[j].id
      modifies this`allocations
      ensures Entry(e.id) == Max(0, Min(e.available, if typed.Some? then typed.value else 0))
      ensures forall id :: id != e.id ==> Entry(id) == old(Entry(id))
      ensures old(Valid()) ==> Valid()
      ensures old(WithinOffers()) ==> WithinOffers()
    {
      var qty := if typed.Some? then typed.value else 0;
      var value := qty;
      if qty > e.available {
        value := e.available;
      }
      if qty < 0 {
        value := 0;
      }
      if value > 0 {
        allocations := allocations[e.id := value];
      } else {
        allocations := allocations - {e.id};
      }
    }

    /** `getTotalAllocated`: the entries of all batches together. */
    method TotalEntered() returns (total: Qty)
      ensures total == Sum(allocations)
    {
      total := 0;
      var todo := allocations.Keys;
      ghost var rest := allocations;
      while todo != {}
        invariant todo <= allocations.Keys && rest == map id | id in todo :: allocations[id]
        invariant total + Sum(rest) == Sum(allocations)
        decreases todo
      {
        var id := AnyOf(todo);
        SumRemove(rest, id);
        total := total + allocations[id];
        todo, rest := todo - {id}, rest - {id};
      }
    }

    /** The button that takes as much as possible of one batch: entries that were within the request stay within
        it, and then the request is met or the batch is used up. */
    method UseMax(e: Element)
      requires e in elements
      requires forall i, j :: 0 <= i < j < |elements| ==> elements[i].id != elements[j].id
      modifies this`allocations
      ensures forall id :: id != e.id ==> Entry(id) == old(Entry(id))
      ensures old(WithinOffers()) ==> WithinOffers()
      ensures old(Valid()) ==> Valid()
      ensures old(Valid()) && old(Sum(allocations)) <= requested
              ==> Sum(allocations) <= requested && (Sum(allocations) == requested || Entry(e.id) == Max(0, e.available))
    {
      ghost var was := allocations;
      var total := TotalEntered();
      var own := Entry(e.id);
      Enter(e, Some(Min(e.available, requested - total + own)));
      if old(Valid()) {
        forall x | x != e.id ensures EntryOf(allocations, x) == EntryOf(was, x) {
          assert Entry(x) == old(Entry(x));
        }
        EntrySums(was, allocations, e.id);
      }
    }

    /** `validatePickOrder` on the batches on display; with sane offers and entries, acceptance means that every
        group gets its greedy share. */
    method ValidatePickOrder() returns (isValid: bool)
      ensures isValid <==> InOrder(Rows())
      ensures Valid() && WithinOffers() && (forall i :: 0 <= i < |elements| ==> 0 <= elements[i].available)
              ==> (isValid <==> MatchesGreedy(Rows()))
    {
      isValid := CheckRows(Rows());
      hide InOrder, MatchesGreedy;
      if Valid() && WithinOffers() && (forall i :: 0 <= i < |elements| ==> 0 <= elements[i].available) {
        InOrderIffGreedy(Rows());
      }
    }
  }

  /** The body of the check: group the rows, then look at the groups in ascending order. */
  method CheckRows(rows: seq<PickRow>) returns (isValid: bool)
    ensures isValid <==> InOrder(rows)
  {
    hide AvailableIn, EnteredIn, LaterEntry;
    var offered, entered := TallyGroups(rows);
    var ids := SortedIds(offered.Keys);
    var i := 0;
    while i < |ids|
      invariant 0 <= i <= |ids|
      invariant forall j :: 0 <= j < i ==> GroupPasses(rows, ids[j])
    {
      var later := HasLaterEntry(rows, ids[i]);
      assert ids[i] in ids;
      if later && entered[ids[i]] < offered[ids[i]] {
        var k :| 0 <= k < |rows| && rows[k].group == ids[i];
        assert !GroupPasses(rows, rows[k].group);
        return false;
      }
      i := i + 1;
    }
    forall k | 0 <= k < |rows| ensures GroupPasses(rows, rows[k].group) {
      assert rows[k].group in offered.Keys;
      var j :| 0 <= j < |ids| && ids[j] == rows[k].group;
    }
    return true;
  }

  /** Build the group table and the two totals of each group. */
  method TallyGroups(rows: seq<PickRow>) returns (offered: map<int, Qty>, entered: map<int, Qty>)
    ensures offered.Keys == entered.Keys == set i | 0 <= i < |rows| :: rows[i].group
    ensures forall g :: g in offered ==> offered[g] == AvailableIn(rows, g) && entered[g] == EnteredIn(rows, g)
  {
    offered, entered := map[], map[];
    var i := |rows|;
    while i > 0
      invariant 0 <= i <= |rows|
      invariant offered.Keys == entered.Keys == set j | i <= j < |rows| :: rows[j].group
      invariant forall g :: g in offered ==> offered[g] == AvailableIn(rows[i..], g) && entered[g] == EnteredIn(rows[i..], g)
      invariant forall g :: g !in offered ==> 0 == AvailableIn(rows[i..], g) && 0 == EnteredIn(rows[i..], g)
    {
      i := i - 1;
      assert rows[i..][1..] == rows[i + 1..];
      var row := rows[i];
      if row.group !in offered {
        offered, entered := offered[row.group := 0], entered[row.group := 0];
      }
      offered := offered[row.group := offered[row.group] + row.available];
      entered := entered[row.group := entered[row.group] + row.entered];
    }
    assert rows[0..] == rows;
  }

  method HasLaterEntry(rows: seq<PickRow>, g: int) returns (found: bool)
    ensures found <==> LaterEntry(rows, g)
  {
    for i := 0 to |rows|
      invariant forall j :: 0 <= j < i ==> !(rows[j].group > g && rows[j].entered > 0)
    {
      if rows[i].group > g && rows[i].entered > 0 {
        return true;
      }
    }
    return false;
  }

  /** The group numbers in ascending order. */
  method SortedIds(ids: set<int>) returns (sorted: seq<int>)
    ensures forall g :: g in sorted <==> g in ids
    ensures forall i, j :: 0 <= i < j < |sorted| ==> sorted[i] < sorted[j]
  {
    sorted := [];
    var rest := ids;
    while rest != {}
      invariant rest <= ids
      invariant forall g :: g in sorted <==> g in ids && g !in rest
      invariant forall i, j :: 0 <= i < j < |sorted| ==> sorted[i] < sorted[j]
      invariant forall i, g :: 0 <= i < |sorted| && g in rest ==> sorted[i] < g
      decreases rest
    {
      var least := AnyOf(rest);
      var unseen := rest - {least};
      while unseen != {}
        invariant unseen <= rest && least in rest
        invariant forall g :: g in rest && g !in unseen ==> least <= g
        decreases unseen
      {
        var g := AnyOf(unseen);
        if g < least {
          least := g;
        }
        unseen := unseen - {g};
      }
      sorted := sorted + [least];
      rest := rest - {least};
    }
  }
}
