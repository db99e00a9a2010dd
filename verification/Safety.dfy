/** What every transaction keeps, whatever its form contains: the stock table stays sound, package lines name
    real batches, item quantities agree with their statuses, and requests follow their lifecycle. */
module Safety {
  import opened Stock
  import opened ItemStatuses
  import opened Packaging
  import opened Intake
  import opened Workflow

  ghost predicate RequestSound(rq: Request) {
    && rq.status in {DRAFT, AWAITING_APPROVAL, SUBMITTED, PART_FILLED, INELIGIBLE}
    && (rq.reviewer.None? <==> rq.status < SUBMITTED)
    && (rq.status == INELIGIBLE ==> rq.reason.Some? && rq.reason.value != "")
    && (rq.status < SUBMITTED ==> forall i :: i in rq.items ==> rq.items[i].status == Requested && rq.items[i].issue == 0)
    && forall i :: i in rq.items ==> Agrees(rq.items[i])
  }

  /** A package belongs to a request in fulfilment and holds only lines of its items, on real batches. */
  ghost predicate PackageSound(s: State, r: int)
    requires r in s.packages
  {
    && r in s.requests && s.requests[r].status == PART_FILLED
    && LinesSound(s.stock.batches, s.packages[r].lines)
    && forall k :: k in s.packages[r].lines ==> k.item in s.requests[r].items
  }

  ghost predicate Good(s: State) {
    && YardSound(Yard(s.stock, s.nextBatch))
    && (forall r :: r in s.requests ==> r < s.nextRequest && RequestSound(s.requests[r]))
    && (forall r :: r in s.packages ==> PackageSound(s, r))
    && (forall d :: d in s.donations ==> DistinctItems(s.donations[d].items))
  }

  /** The same batches, with only usable and reserved quantities rewritten. */
  ghost predicate SameShape(a: map<int, Batch>, b: map<int, Batch>) {
    a.Keys == b.Keys && forall id :: id in a ==> b[id] == a[id].(usable := b[id].usable, reserved := b[id].reserved)
  }

  /** Filing a sound request and package over a sound stock table gives a good state again. */
  lemma FilingKeepsGood(s: State, st: Stock, r: int, rq: Request, p: Package)
    requires Good(s) && r in s.requests
    requires Sound(st) && SameShape(s.stock.batches, st.batches)
    requires RequestSound(rq) && rq.status == PART_FILLED
    requires LinesSound(s.stock.batches, p.lines)
    requires forall k :: k in p.lines ==> k.item in rq.items
    ensures Good(Filed(s, st, r, rq, p))
  {
    var t := Filed(s, st, r, rq, p);
    assert LinesSound(st.batches, p.lines);
    forall x | x in t.packages ensures PackageSound(t, x) {
      if x != r {
        assert PackageSound(s, x);
        assert LinesSound(st.batches, t.packages[x].lines);
      }
    }
  }

  /** What an accepted form is worth to a handler. */
  lemma PreparedIsSound(s: State, r: int, today: int, form: Form, complete: bool)
    requires Good(s) && r in s.requests
    requires Prepared(s, r, today, form, complete).Some?
    ensures DraftSound(s, r, Prepared(s, r, today, form, complete).value)
  {
    var d := Prepared(s, r, today, form, complete).value;
    var items := s.requests[r].items;
    ProcessedLinesSound(s.stock.batches, today, s.statuses, OldLines(s, r), items, form, complete);
    forall i | i in d.items ensures Agrees(d.items[i]) {
      ProcessedItemsAgree(s.stock.batches, today, s.statuses, OldLines(s, r), items, form, complete, i);
    }
  }

  /** The request as the package handlers leave it. */
  function InFulfilment(rq: Request, items: map<int, ReqItem>, version: int): Request {
    rq.(items := items, status := PART_FILLED, version := version)
  }

  /** What saving, submitting and saving an approval have in common: the stock moves from the package's old
      lines to the processed ones, and only this request and package change. */
  ghost predicate Reserving(s: State, r: int, d: Draft, v: int, p: Package, t: State) {
    && r in s.requests
    && SUBMITTED <= s.requests[r].status != INELIGIBLE
    && p.lines == d.lines
    && p.dispatched == (r in s.packages && s.packages[r].dispatched)
    && var st := Reserve(s.stock, OldLines(s, r), Positive(d.lines));
    && st.Some?
    && t == Filed(s, st.value, r, InFulfilment(s.requests[r], d.items, v), p)
  }

  /** What approving, sending and reviewing have in common: the new lines are committed, and only this
      request and package change. */
  ghost predicate Dispatching(s: State, r: int, d: Draft, p: Package, t: State) {
    && r in s.requests
    && SUBMITTED <= s.requests[r].status != INELIGIBLE
    && p.lines == d.lines
    && p.dispatched
    && var st := Commit(s.stock, d.lines);
    && st.Some?
    && t == Filed(s, st.value, r, InFulfilment(s.requests[r], d.items, s.requests[r].version + 1), p)
  }

  /** A draft that a good state may file. */
  ghost predicate DraftSound(s: State, r: int, d: Draft)
    requires r in s.requests
  {
    && d.items.Keys == s.requests[r].items.Keys
    && (forall i :: i in d.items ==> Agrees(d.items[i]) && d.items[i].request == s.requests[r].items[i].request)
    && LinesSound(s.stock.batches, d.lines)
    && (forall k :: k in d.lines ==> k.item in d.items)
  }

  lemma ReservingShape(s: State, r: int, d: Draft, v: int, p: Package, t: State)
    requires Reserving(s, r, d, v, p, t)
    ensures SameShape(s.stock.batches, t.stock.batches)
    ensures forall id :: id in s.stock.batches ==>
              && t.stock.batches[id].usable == s.stock.batches[id].usable
              && t.stock.batches[id] == Shift(s.stock.batches[id],
                   Delta(OldLines(s, r), Positive(d.lines), KeyOf(id, s.stock.batches[id])))
    ensures t.packages == s.packages[r := p] && t.packages[r] == p && p.lines == d.lines
    ensures p.dispatched == (r in s.packages && s.packages[r].dispatched)
  {
  }

  lemma DispatchingShape(s: State, r: int, d: Draft, p: Package, t: State)
    requires Dispatching(s, r, d, p, t)
    ensures SameShape(s.stock.batches, t.stock.batches)
    ensures forall id :: id in s.stock.batches ==>
              t.stock.batches[id] == Deducted(s.stock.batches[id], QtyOf(d.lines, KeyOf(id, s.stock.batches[id])))
    ensures t.packages == s.packages[r := p] && t.packages[r] == p && p.lines == d.lines && p.dispatched
  {
  }

  lemma ReservingStep(s: State, a: Action, t: State) returns (d: Draft, v: int, p: Package)
    requires Good(s) && Attempt(s, a) == Some(t)
    requires a.ASaveDraft? || a.ASubmit? || a.ASaveApproval?
    ensures Reserving(s, a.r, d, v, p, t) && DraftSound(s, a.r, d)
    ensures Prepared(s, a.r, a.today, a.form, false) == Some(d)
  {
    d := Prepared(s, a.r, a.today, a.form, false).value;
    PreparedIsSound(s, a.r, a.today, a.form, false);
    v, p := t.requests[a.r].version, t.packages[a.r];
    if a.ASaveApproval? {
      assert PackageSound(s, a.r);
    }
  }

  lemma GoodIsSound(s: State)
    requires Good(s)
    ensures Sound(s.stock)
  {
  }

  lemma RequestStaysSound(s: State, r: int, d: Draft, v: int)
    requires Good(s) && r in s.requests && SUBMITTED <= s.requests[r].status && DraftSound(s, r, d)
    ensures RequestSound(InFulfilment(s.requests[r], d.items, v))
  {
    assert RequestSound(s.requests[r]);
  }

  lemma ReservingKeepsGood(s: State, r: int, d: Draft, v: int, p: Package, t: State)
    requires Good(s) && Reserving(s, r, d, v, p, t) && DraftSound(s, r, d)
    ensures Good(t)
  {
    hide SameShape, Reserve, RequestSound, Good, Sound, LinesSound;
    GoodIsSound(s);
    assert SameShape(s.stock.batches, t.stock.batches) by {
      ReservingShape(s, r, d, v, p, t);
    }
    RequestStaysSound(s, r, d, v);
    ReserveKeepsSound(s.stock, OldLines(s, r), Positive(d.lines));
    FilingKeepsGood(s, t.stock, r, InFulfilment(s.requests[r], d.items, v), p);
  }

  /** Approving writes the gated issue quantities, which are the ones the form processing wrote. */
  lemma ApprovalIssues(items: map<int, ReqItem>, lines: Lines, any: bool)
    requires Gate(items, lines, any)
    requires forall k :: k in lines ==> 0 <= lines[k]
    ensures Issued(items, lines) == items
  {
    forall i | i in items ensures Issued(items, lines)[i] == items[i] {
      GateIsExact(items, lines, any, i);
      PositiveTotal(lines, i);
    }
  }

  /** Lines of zero add nothing to a total. */
  lemma PositiveTotal(lines: Lines, item: int)
    requires forall k :: k in lines ==> 0 <= lines[k]
    ensures LineTotal(Positive(lines), item) == LineTotal(lines, item)
  {
    DropZeroes(LinesOf(lines, item), LinesOf(Positive(lines), item));
  }

  lemma {:induction false} DropZeroes(all: Lines, some: Lines)
    requires some.Keys <= all.Keys
    requires forall k :: k in all ==> if k in some then some[k] == all[k] else all[k] == 0
    ensures Sums.Sum(all) == Sums.Sum(some)
    decreases all.Keys
  {
    if all == map[] {
      assert some == map[];
    } else {
      var k :| k in all;
      Sums.SumRemove(all, k);
      if k in some {
        Sums.SumRemove(some, k);
        DropZeroes(all - {k}, some - {k});
      } else {
        assert some - {k} == some;
        DropZeroes(all - {k}, some);
      }
    }
  }

  lemma ApprovingStep(s: State, a: Action, t: State) returns (d: Draft, p: Package)
    requires Good(s) && Attempt(s, a) == Some(t) && a.AApprove?
    ensures Dispatching(s, a.r, d, p, t) && DraftSound(s, a.r, d)
    ensures HasPending(s, a.r) && Prepared(s, a.r, a.today, a.form, false) == Some(d)
    ensures Gate(d.items, d.lines, AnyPositive(d.lines))
  {
    d := Prepared(s, a.r, a.today, a.form, false).value;
    PreparedIsSound(s, a.r, a.today, a.form, false);
    assert PackageSound(s, a.r);
    p := ApprovalShape(s, a.r, d, t);
  }

  lemma ApprovalShape(s: State, r: int, d: Draft, t: State) returns (p: Package)
    requires HasPending(s, r) && s.requests[r].status == PART_FILLED
    requires FileApproval(s, r, d) == Some(t)
    requires forall k :: k in d.lines ==> 0 <= d.lines[k]
    ensures Dispatching(s, r, d, p, t)
    ensures Gate(d.items, d.lines, AnyPositive(d.lines))
  {
    hide Gate, Issued, AnyPositive, Commit;
    p := s.packages[r].(lines := d.lines, dispatched := true, version := s.packages[r].version + 1);
    ApprovalIssues(d.items, d.lines, AnyPositive(d.lines));
  }

  lemma SendingStep(s: State, a: Action, t: State) returns (d: Draft, p: Package)
    requires Good(s) && Attempt(s, a) == Some(t) && a.ASend?
    ensures Dispatching(s, a.r, d, p, t) && DraftSound(s, a.r, d)
    ensures Prepared(s, a.r, a.today, a.form, true) == Some(d)
  {
    d := Prepared(s, a.r, a.today, a.form, true).value;
    PreparedIsSound(s, a.r, a.today, a.form, true);
    p := PackageOf(s, a.r, a.user).(lines := d.lines, dispatched := true);
  }

  lemma ReviewingStep(s: State, a: Action, t: State) returns (d: Draft, p: Package)
    requires Good(s) && Attempt(s, a) == Some(t) && a.AReview?
    ensures Dispatching(s, a.r, d, p, t) && DraftSound(s, a.r, d)
    ensures HasPending(s, a.r) && d == Draft(s.requests[a.r].items, s.packages[a.r].lines)
    ensures Gate(d.items, d.lines, AnyIssued(d.items))
  {
    assert PackageSound(s, a.r);
    d := Draft(s.requests[a.r].items, s.packages[a.r].lines);
    p := s.packages[a.r].(dispatched := true);
  }

  lemma DispatchingStep(s: State, a: Action, t: State) returns (d: Draft, p: Package)
    requires Good(s) && Attempt(s, a) == Some(t)
    requires a.AApprove? || a.ASend? || a.AReview?
    ensures Dispatching(s, a.r, d, p, t) && DraftSound(s, a.r, d)
    ensures !a.AReview? ==> Prepared(s, a.r, a.today, a.form, a.ASend?) == Some(d)
  {
    if a.AApprove? {
      d, p := ApprovingStep(s, a, t);
    } else if a.ASend? {
      d, p := SendingStep(s, a, t);
    } else {
      d, p := ReviewingStep(s, a, t);
    }
  }

  lemma DispatchingKeepsGood(s: State, r: int, d: Draft, p: Package, t: State)
    requires Good(s) && Dispatching(s, r, d, p, t) && DraftSound(s, r, d)
    ensures Good(t)
  {
    hide SameShape, Commit, RequestSound, Good, Sound, LinesSound, Deducted;
    GoodIsSound(s);
    assert SameShape(s.stock.batches, t.stock.batches) by {
      DispatchingShape(s, r, d, p, t);
    }
    RequestStaysSound(s, r, d, s.requests[r].version + 1);
    CommitKeepsSound(s.stock, d.lines);
    FilingKeepsGood(s, t.stock, r, InFulfilment(s.requests[r], d.items, s.requests[r].version + 1), p);
  }

  lemma ReleaseNothing(st: Stock)
    ensures Release(st, map[]) == st
  {
    var t := Release(st, map[]);
    assert t.batches == st.batches;
    assert t.rows == st.rows;
  }

  /** What cancelling and releasing have in common: reservations for `freed` are given back and the lines
      are discarded. */
  ghost predicate Discarding(s: State, r: int, freed: Lines, t: State) {
    && r in s.requests && r in s.packages
    && t == Filed(s, Release(s.stock, freed), r, s.requests[r], s.packages[r].(lines := map[]))
  }

  lemma DiscardingShape(s: State, r: int, freed: Lines, t: State)
    requires Discarding(s, r, freed, t)
    ensures SameShape(s.stock.batches, t.stock.batches)
    ensures forall id :: id in s.stock.batches ==>
              && t.stock.batches[id].usable == s.stock.batches[id].usable
              && t.stock.batches[id] == Freed(s.stock.batches[id], QtyOf(freed, KeyOf(id, s.stock.batches[id])))
    ensures t.packages == s.packages[r := s.packages[r].(lines := map[])]
  {
  }

  lemma DiscardingStep(s: State, a: Action, t: State)
    requires Good(s) && Attempt(s, a) == Some(t)
    requires a.ACancel? || a.ARelease?
    ensures if a.r in s.packages then Discarding(s, a.r, if a.ACancel? then map[] else s.packages[a.r].lines, t)
            else t == s
  {
    if a.r in s.packages {
      assert PackageSound(s, a.r);
      assert s.requests[a.r := s.requests[a.r]] == s.requests;
    } else {
      ReleaseNothing(s.stock);
    }
  }

  lemma DiscardingKeepsGood(s: State, r: int, freed: Lines, t: State)
    requires Good(s) && Discarding(s, r, freed, t)
    ensures Good(t)
  {
    assert PackageSound(s, r);
    ReleaseKeepsSound(s.stock, freed);
    FilingKeepsGood(s, t.stock, r, t.requests[r], t.packages[r]);
  }

  lemma TakingInKeepsGood(s: State, a: Action)
    requires Good(s) && Commits(s, a) && a.ATakeIn?
    ensures Good(Exec(s, a))
  {
    var y := Yard(s.stock, s.nextBatch);
    var items := s.donations[a.d].items;
    SheetGivesSoundArrivals(s.stock.batches, s.catalog, a.today, a.sheet, items);
    var arrivals := Arrivals(s.catalog, a.sheet, items);
    ReceiveAllKeepsSound(y, a.warehouse, arrivals);
    ReceiveAllExtends(y, a.warehouse, arrivals);
    var t := Exec(s, a);
    forall r | r in t.packages ensures PackageSound(t, r) {
      assert PackageSound(s, r);
      assert LinesSound(t.stock.batches, t.packages[r].lines);
    }
  }

  lemma DeskworkShape(s: State, a: Action, t: State)
    requires Attempt(s, a) == Some(t)
    requires IsDeskwork(a)
    ensures t.stock == s.stock && t.nextBatch == s.nextBatch && t.packages == s.packages
  {
  }

  /** Requests stay sound and keep their numbers, and requests in fulfilment are left alone. */
  lemma DeskworkRequest(s: State, a: Action, t: State, r: int)
    requires Attempt(s, a) == Some(t) && IsDeskwork(a)
    requires r in s.requests ==> r < s.nextRequest && RequestSound(s.requests[r])
    ensures r in t.requests ==> r < t.nextRequest && RequestSound(t.requests[r])
    ensures r in s.requests && s.requests[r].status == PART_FILLED ==> r in t.requests && t.requests[r] == s.requests[r]
  {
    hide DistinctItems, Strip;
  }

  lemma DeskworkDonation(s: State, a: Action, t: State, d: int)
    requires Attempt(s, a) == Some(t) && IsDeskwork(a)
    requires d in s.donations ==> DistinctItems(s.donations[d].items)
    ensures d in t.donations ==> DistinctItems(t.donations[d].items)
  {
    hide DistinctItems;
  }

  /** The steps that touch neither stock nor packages. */
  lemma DeskworkKeepsGood(s: State, a: Action)
    requires Good(s) && Commits(s, a)
    requires IsDeskwork(a)
    ensures Good(Exec(s, a))
  {
    hide Attempt, YardSound, LinesSound, DistinctItems, RequestSound;
    var t := Exec(s, a);
    DeskworkShape(s, a, t);
    forall r | r in t.requests ensures r < t.nextRequest && RequestSound(t.requests[r]) {
      DeskworkRequest(s, a, t, r);
    }
    forall r | r in t.packages ensures PackageSound(t, r) {
      assert PackageSound(s, r);
      DeskworkRequest(s, a, t, r);
    }
    forall d | d in t.donations ensures DistinctItems(t.donations[d].items) {
      DeskworkDonation(s, a, t, d);
    }
  }

  /** Universal safety, one step: every transaction keeps every good state good. */
  lemma StepKeepsGood(s: State, a: Action)
    requires Good(s)
    ensures Good(Exec(s, a))
  {
    if Commits(s, a) {
      var t := Exec(s, a);
      if a.ASaveDraft? || a.ASubmit? || a.ASaveApproval? {
        var d, v, p := ReservingStep(s, a, t);
        ReservingKeepsGood(s, a.r, d, v, p, t);
      } else if a.AApprove? || a.ASend? || a.AReview? {
        var d, p := DispatchingStep(s, a, t);
        DispatchingKeepsGood(s, a.r, d, p, t);
      } else if a.ACancel? || a.ARelease? {
        DiscardingStep(s, a, t);
        if a.r in s.packages {
          DiscardingKeepsGood(s, a.r, if a.ACancel? then map[] else s.packages[a.r].lines, t);
        }
      } else if a.ATakeIn? {
        TakingInKeepsGood(s, a);
      } else {
        DeskworkKeepsGood(s, a);
      }
    }
  }

  /** A new installation is good. */
  lemma EmptyIsGood(catalog: Catalog, statuses: set<Status>)
    ensures Good(Empty(catalog, statuses))
  {
  }

  /** Universal safety, whole runs. */
  lemma {:induction false} RunKeepsGood(s: State, actions: seq<Action>)
    requires Good(s)
    ensures Good(Run(s, actions))
    decreases |actions|
  {
    if actions == [] {
    } else {
      RunKeepsGood(s, actions[..|actions| - 1]);
      StepKeepsGood(Run(s, actions[..|actions| - 1]), actions[|actions| - 1]);
    }
  }
}
