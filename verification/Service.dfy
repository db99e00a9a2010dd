/** The services and handlers themselves: one object holds the tables, its methods change them in place, and each
    method is proved to do what the functions of `Stock`, `Packaging` and `Workflow` say. */
module Service {
  import opened Sums
  import opened Stock
  import opened ItemStatuses
  import opened Packaging
  import opened Intake
  import opened Workflow
  import opened Safety
  import opened Reservations
  import opened BatchNumbers
  import opened FormService
  import opened IntakeService

  // ---------------------------------------------------------------- one pass of the release and commit loops

  lemma FreeOne(batches: map<int, Batch>, lines: Lines, done: set<LineKey>, k: LineKey)
    requires k !in done && k in lines
    ensures var now := FreedOn(batches, lines, done);
            && (Found(now, k) <==> Found(batches, k))
            && (if Found(batches, k) then now[k.batch := Freed(now[k.batch], lines[k])] else now)
               == FreedOn(batches, lines, done + {k})
  {
    var now := FreedOn(batches, lines, done);
    if Found(batches, k) {
      assert now[k.batch] == batches[k.batch];
      assert now[k.batch := Freed(now[k.batch], lines[k])] == FreedOn(batches, lines, done + {k});
    } else {
      assert now == FreedOn(batches, lines, done + {k});
    }
  }

  lemma DeductOne(batches: map<int, Batch>, lines: Lines, done: set<LineKey>, k: LineKey)
    requires k !in done && k in lines
    ensures var now := DeductedOn(batches, lines, done);
            && (LinePasses(now, lines, k) <==> LinePasses(batches, lines, k))
            && (LinePasses(batches, lines, k) ==>
                  (if lines[k] > 0 then now[k.batch := Deducted(now[k.batch], lines[k])] else now)
                  == DeductedOn(batches, lines, done + {k}))
  {
    var now := DeductedOn(batches, lines, done);
    assert Found(now, k) <==> Found(batches, k);
    if Found(batches, k) {
      assert now[k.batch] == batches[k.batch];
    }
    if lines[k] <= 0 {
      assert now == DeductedOn(batches, lines, done + {k});
    } else if Found(batches, k) {
      assert now[k.batch := Deducted(now[k.batch], lines[k])] == DeductedOn(batches, lines, done + {k});
    }
  }

  // ---------------------------------------------------------------- transactions

  /** From `s` the action led to `t`, committing or not as the state machine says. */
  ghost predicate Executed(s: State, a: Action, t: State, ok: bool) {
    (ok <==> Commits(s, a)) && t == Exec(s, a)
  }

  ghost predicate StateValid(s: State) {
    Good(s) && Labelled(s.stock.batches)
  }

  /** How every transaction of the desk ends: what the state machine attempts was filed, or nothing was. */
  lemma Settled(s: State, a: Action, t: State, ok: bool)
    requires StateValid(s)
    requires if ok then Attempt(s, a) == Some(t) else Attempt(s, a).None? && t == s
    ensures Executed(s, a, t, ok) && StateValid(t)
  {
    hide Attempt, Good, Labelled;
    StepKeepsGood(s, a);
    StepKeepsLabels(s, a);
  }

  /** What the handlers of a posted form attempt: nothing past a failed check, else what they file. */
  lemma FormAttempt(s: State, a: Action)
    requires a.ASaveDraft? || a.ASubmit? || a.ASend?
    requires Packable(s, a.r) && PrepareVersions(s, a.r, a.posted)
    requires a.ASubmit? ==> !(a.r in s.packages && (s.packages[a.r].dispatched || s.packages[a.r].creator != a.user))
    ensures var d := Prepared(s, a.r, a.today, a.form, a.ASend?);
            Attempt(s, a) == if d.None? then None
                             else if a.ASaveDraft? then FileDraft(s, a.r, a.user, d.value)
                             else if a.ASubmit? then FileSubmission(s, a.r, a.user, d.value)
                             else FileDispatch(s, a.r, a.user, d.value)
  {
    hide Prepared, FileDraft, FileSubmission, FileDispatch;
  }

  /** What the intake loop may rely on once the sheet has passed. */
  lemma IntakeReady(s: State, d: int, today: int, sheet: Sheet)
    requires StateValid(s) && d in s.donations
    requires SheetPasses(s.stock.batches, s.catalog, today, sheet, s.donations[d].items)
    ensures forall id :: id in s.stock.batches ==> id < s.nextBatch
    ensures forall j :: 0 <= j < |s.donations[d].items| ==> s.donations[d].items[j].item in sheet.entries
    ensures Labelled(s.stock.batches)
    ensures var arrivals := Arrivals(s.catalog, sheet, s.donations[d].items);
            && (forall j :: 0 <= j < |arrivals| ==> ArrivalFits(s.stock.batches, arrivals[j]))
            && (forall j, k :: 0 <= j < k < |arrivals| ==> arrivals[j].item != arrivals[k].item)
  {
    SheetGivesSoundArrivals(s.stock.batches, s.catalog, today, sheet, s.donations[d].items);
  }

  // ---------------------------------------------------------------- request steps

  /** Requests that have left DRAFT are the same before and after. */
  predicate SparesSubmitted(was: map<int, Request>, now: map<int, Request>) {
    forall r :: r in was && was[r].status != DRAFT ==> r in now && now[r] == was[r]
  }

  lemma RequestNumbers(s: State)
    requires StateValid(s)
    ensures forall r :: r in s.requests ==> r < s.nextRequest
  {
  }

  lemma DraftsAreUntouched(s: State, r: int)
    requires StateValid(s) && IsDraft(s, r)
    ensures forall i :: i in s.requests[r].items ==> s.requests[r].items[i].status == Requested && s.requests[r].items[i].issue == 0
  {
    assert RequestSound(s.requests[r]);
  }

  // ---------------------------------------------------------------- the tables and their transactions

  class ReliefDesk {
    var batches: map<int, Batch>
    var rows: map<Slot, Row>
    var nextBatch: int
    var requests: map<int, Request>
    var nextRequest: int
    var packages: map<int, Package>
    var donations: map<int, Donation>
    var intakes: set<(int, int)>
    var catalog: Catalog
    const statuses: set<Status>

    /** The tables as one value. */
    function Db(): State
      reads this
    {
      State(Stock(batches, rows), nextBatch, requests, nextRequest, packages, donations, intakes, catalog, statuses)
    }

    ghost predicate Valid()
      reads this
    {
      StateValid(Db())
    }

    /** An empty system. */
    constructor (catalog: Catalog, statuses: set<Status>)
      ensures Valid()
      ensures Db() == Empty(catalog, statuses)
    {
      this.catalog, this.statuses := catalog, statuses;
      batches, rows, nextBatch := map[], map[], 1;
      requests, nextRequest, packages := map[], 1, map[];
      donations, intakes := map[], {};
    }

    // -------------------------------------------------------------- reservation service

    /** `reserve_inventory`. On refusal the batches and rows may be left half changed; the caller rolls back. */
    method ReserveInventory(o: Lines, lines: Lines) returns (ok: bool)
      modifies this`batches, this`rows
      ensures ok <==> Reserve(old(Db()).stock, o, Positive(lines)).Some?
      ensures ok ==> Reserve(old(Db()).stock, o, Positive(lines)) == Some(Db().stock)
    {
      var n := PositiveLines(lines);
      ok := WalkBatches(o, n);
      if !ok {
        return;
      }
      AllKeysWalked(old(batches), o, n);
      ok := RestateReserved(SlotsOf(o) + SlotsOf(n));
    }

    /** The first loop: apply the deltas batch by batch, in any order. */
    method WalkBatches(o: Lines, n: Lines) returns (ok: bool)
      modifies this`batches
      ensures ok <==> forall k :: k in o.Keys + n.Keys ==> KeyPasses(old(batches), o, n, k)
      ensures ok ==> batches == ShiftedOn(old(batches), o, n, o.Keys + n.Keys)
    {
      hide KeyPasses, WalkKey;
      ghost var was, done := batches, {};
      var keys := o.Keys + n.Keys;
      var todo := keys;
      assert ShiftedOn(was, o, n, {}) == was;
      hide ShiftedOn;
      while todo != {}
        invariant todo <= keys && done == keys - todo
        invariant batches == ShiftedOn(was, o, n, done)
        invariant forall k :: k in done ==> KeyPasses(was, o, n, k)
        decreases todo
      {
        var k := AnyOf(todo);
        WalkOne(was, o, n, done, k);
        ok := MoveBatch(o, n, k);
        if !ok {
          return;
        }
        todo, done := todo - {k}, done + {k};
      }
      assert done == keys;
      return true;
    }

    /** One pass of the first loop. */
    method MoveBatch(o: Lines, n: Lines, k: LineKey) returns (ok: bool)
      modifies this`batches
      ensures ok <==> KeyPasses(old(batches), o, n, k)
      ensures ok ==> WalkKey(old(batches), o, n, k) == Some(batches)
    {
      var delta := (if k in n then n[k] else 0) - (if k in o then o[k] else 0);
      if delta != 0 {
        if !Found(batches, k) {
          return delta < 0;
        }
        var batch := batches[k.batch];
        var total := batch.reserved + delta;
        if total < 0 {
          batches := batches[k.batch := batch.(reserved := 0)];
        } else if total > batch.usable {
          return false;
        } else {
          batches := batches[k.batch := batch.(reserved := total)];
        }
      } else if Found(batches, k) {
        assert batches == batches[k.batch := batches[k.batch]];
      }
      return true;
    }

    /** The second loop: recompute the reserved totals of the affected rows. */
    method RestateReserved(slots: set<Slot>) returns (ok: bool)
      modifies this`rows
      ensures ok <==> forall s :: s in slots ==> SlotPasses(batches, old(rows), s)
      ensures ok ==> rows == ReservedRestated(batches, old(rows), slots)
    {
      ghost var was := rows;
      var todo := slots;
      while todo != {}
        invariant todo <= slots
        invariant rows == ReservedRestated(batches, was, slots - todo)
        invariant forall s :: s in slots - todo ==> SlotPasses(batches, was, s)
        decreases todo
      {
        var s := AnyOf(todo);
        var total := SumColumn(batches, s, Reserved);
        if s !in rows || !rows[s].active {
          return false;
        }
        rows := rows[s := rows[s].(reserved := total)];
        if rows[s].reserved > rows[s].usable {
          return false;
        }
        assert slots - (todo - {s}) == slots - todo + {s};
        todo := todo - {s};
      }
      assert slots - todo == slots;
      return true;
    }

    /** `release_all_reservations` for request `r`. */
    method ReleaseAllReservations(r: int)
      modifies this`batches, this`rows
      ensures Db().stock == Release(old(Db()).stock, OldLines(old(Db()), r))
    {
      var lines := if r in packages then packages[r].lines else map[];
      var reserved := PositiveLines(lines);
      FreeBatches(reserved);
      assert batches == FreedOn(old(batches), lines, lines.Keys);
      RestateActive(SlotsOf(reserved));
    }

    method FreeBatches(reserved: Lines)
      requires forall k :: k in reserved ==> reserved[k] > 0
      modifies this`batches
      ensures batches == FreedOn(old(batches), reserved, reserved.Keys)
    {
      ghost var was, done := batches, {};
      var todo := reserved.Keys;
      assert FreedOn(was, reserved, {}) == was;
      hide FreedOn;
      while todo != {}
        invariant todo <= reserved.Keys && done == reserved.Keys - todo
        invariant batches == FreedOn(was, reserved, done)
        decreases todo
      {
        var k := AnyOf(todo);
        FreeOne(was, reserved, done, k);
        if Found(batches, k) {
          var batch := batches[k.batch];
          batches := batches[k.batch := batch.(reserved := Max(0, batch.reserved - reserved[k]))];
        }
        todo, done := todo - {k}, done + {k};
      }
      assert done == reserved.Keys;
    }

    /** Recompute the reserved totals of those affected rows that exist and are active. */
    method RestateActive(slots: set<Slot>)
      modifies this`rows
      ensures rows == ReservedRestated(batches, old(rows), set s | s in slots && s in old(rows) && old(rows)[s].active)
    {
      ghost var was := rows;
      var todo := slots;
      while todo != {}
        invariant todo <= slots
        invariant rows == ReservedRestated(batches, was, set s | s in slots - todo && s in was && was[s].active)
        decreases todo
      {
        var s := AnyOf(todo);
        var total := SumColumn(batches, s, Reserved);
        if s in rows && rows[s].active {
          rows := rows[s := rows[s].(reserved := total)];
        }
        todo := todo - {s};
      }
    }

    /** `commit_inventory` for request `r`. On refusal the caller rolls back. */
    method CommitInventory(r: int) returns (ok: bool)
      requires r in packages
      modifies this`batches, this`rows
      ensures ok <==> Commit(old(Db()).stock, packages[r].lines).Some?
      ensures ok ==> Commit(old(Db()).stock, packages[r].lines) == Some(Db().stock)
    {
      var lines := packages[r].lines;
      ok := DeductBatches(lines);
      if ok {
        var positive := PositiveLines(lines);
        RestateTotals(SlotsOf(positive));
      }
    }

    method DeductBatches(lines: Lines) returns (ok: bool)
      modifies this`batches
      ensures ok <==> forall k :: k in lines ==> LinePasses(old(batches), lines, k)
      ensures ok ==> batches == DeductedOn(old(batches), lines, lines.Keys)
    {
      ghost var was, done := batches, {};
      var todo := lines.Keys;
      assert DeductedOn(was, lines, {}) == was;
      hide DeductedOn;
      while todo != {}
        invariant todo <= lines.Keys && done == lines.Keys - todo
        invariant batches == DeductedOn(was, lines, done)
        invariant forall k :: k in done ==> LinePasses(was, lines, k)
        decreases todo
      {
        var k := AnyOf(todo);
        DeductOne(was, lines, done, k);
        if lines[k] > 0 {
          if !Found(batches, k) || batches[k.batch].usable < lines[k] {
            return false;
          }
          var batch := batches[k.batch];
          batches := batches[k.batch := batch.(usable := batch.usable - lines[k], reserved := Max(0, batch.reserved - lines[k]))];
        }
        todo, done := todo - {k}, done + {k};
      }
      assert done == lines.Keys;
      return true;
    }

    method RestateTotals(slots: set<Slot>)
      modifies this`rows
      ensures rows == Restated(batches, old(rows), slots)
    {
      ghost var was := rows;
      var todo := slots;
      while todo != {}
        invariant todo <= slots
        invariant rows == Restated(batches, was, slots - todo)
        decreases todo
      {
        var s := AnyOf(todo);
        var usable := SumColumn(batches, s, Usable);
        var reserved := SumColumn(batches, s, Reserved);
        if s in rows {
          rows := rows[s := rows[s].(usable := usable, reserved := reserved)];
        }
        assert slots - (todo - {s}) == slots - todo + {s};
        todo := todo - {s};
      }
      assert slots - todo == slots;
    }

    // -------------------------------------------------------------- package handlers

    /** `_process_allocations`: the package is created if need be, then items and lines are rewritten. On refusal
        the caller rolls back. */
    method ProcessAllocations(r: int, user: string, today: int, form: Form, complete: bool) returns (ok: bool, o: Lines)
      requires r in requests
      modifies this`requests, this`packages
      ensures o == OldLines(old(Db()), r)
      ensures ok <==> Prepared(old(Db()), r, today, form, complete).Some?
      ensures ok ==> var d := Prepared(old(Db()), r, today, form, complete).value;
                     && requests == old(requests)[r := old(requests)[r].(items := d.items)]
                     && packages == old(packages)[r := PackageOf(old(Db()), r, user).(lines := d.lines)]
    {
      hide ItemsAfter, FormPasses, LinesAfter;
      if r !in packages {
        packages := packages[r := Package(false, false, user, 1, map[])];
      }
      o := packages[r].lines;
      var after, merged, processed;
      ok, after, merged, processed := ProcessItems(batches, today, statuses, o, requests[r].items, form, complete);
      if ok {
        var lines := DeleteOrphans(o, merged, processed);
        OrphansGone(o, LinesAfter(batches, requests[r].items.Keys, form));
        requests := requests[r := requests[r].(items := after)];
        packages := packages[r := packages[r].(lines := lines)];
      }
    }

    /** `db.session.rollback()`. */
    method Rollback(b: map<int, Batch>, w: map<Slot, Row>, q: map<int, Request>, p: map<int, Package>)
      modifies this`batches, this`rows, this`requests, this`packages
      ensures batches == b && rows == w && requests == q && packages == p
    {
      batches, rows, requests, packages := b, w, q, p;
    }

    /** The page's status check and the version checks of the preparation handlers; the package version is compared
        only when there is a package and the form posts one. */
    method MayPrepare(r: int, posted: Posted) returns (ok: bool)
      ensures ok <==> Packable(Db(), r) && PrepareVersions(Db(), r, posted)
    {
      if r !in requests || (requests[r].status != SUBMITTED && requests[r].status != PART_FILLED) {
        return false;
      }
      if posted.request.None? || posted.request.value != requests[r].version {
        return false;
      }
      if r in packages && posted.package.Some? {
        return posted.package.value == packages[r].version;
      }
      return true;
    }

    /** The checks of the approval handlers: a package not yet dispatched, and both versions. */
    method MayApprove(r: int, posted: Posted) returns (ok: bool)
      ensures ok <==> HasPending(Db(), r) && ApproveVersions(Db(), r, posted)
    {
      if r !in requests || r !in packages || packages[r].dispatched {
        return false;
      }
      if posted.request.None? || posted.request.value != requests[r].version {
        return false;
      }
      return posted.package.Some? && posted.package.value == packages[r].version;
    }

    /** `_save_draft`: all of it, or nothing. */
    method SaveDraft(r: int, user: string, posted: Posted, today: int, form: Form) returns (ok: bool)
      requires Valid()
      modifies this`batches, this`rows, this`requests, this`packages
      ensures Valid()
      ensures Executed(old(Db()), ASaveDraft(r, user, posted, today, form), Db(), ok)
    {
      hide StateValid, Prepared, Reserve, Executed, Positive, Release, ReceiveAll, SheetPasses, Strip, PrepareVersions;
      ghost var s, a := Db(), ASaveDraft(r, user, posted, today, form);
      var b, w, q, p := batches, rows, requests, packages;
      ok := MayPrepare(r, posted);
      if !ok {
        Settled(s, a, Db(), false);
        return;
      }
      FormAttempt(s, a);
      hide Attempt;
      var o;
      ok, o := ProcessAllocations(r, user, today, form, false);
      if ok {
        packages := packages[r := packages[r].(submitted := false)];
        requests := requests[r := requests[r].(status := PART_FILLED, version := requests[r].version + 1)];
        assert requests == q[r := requests[r]] && packages == p[r := packages[r]];
        ok := ReserveInventory(o, packages[r].lines);
      }
      if !ok {
        Rollback(b, w, q, p);
      }
      Settled(s, a, Db(), ok);
    }

    /** `_submit_for_approval`. */
    method SubmitForApproval(r: int, user: string, posted: Posted, today: int, form: Form) returns (ok: bool)
      requires Valid()
      modifies this`batches, this`rows, this`requests, this`packages
      ensures Valid()
      ensures Executed(old(Db()), ASubmit(r, user, posted, today, form), Db(), ok)
    {
      hide StateValid, Prepared, Reserve, Executed, Positive, Release, ReceiveAll, SheetPasses, Strip, PrepareVersions;
      ghost var s, a := Db(), ASubmit(r, user, posted, today, form);
      var b, w, q, p := batches, rows, requests, packages;
      ok := MayPrepare(r, posted);
      if !ok {
        Settled(s, a, Db(), false);
        return;
      }
      if r in packages && (packages[r].dispatched || packages[r].creator != user) {
        ok := false;
        Settled(s, a, Db(), false);
        return;
      }
      FormAttempt(s, a);
      hide Attempt;
      var o;
      ok, o := ProcessAllocations(r, user, today, form, false);
      if ok {
        packages := packages[r := packages[r].(submitted := true, version := packages[r].version + 1)];
        requests := requests[r := requests[r].(status := PART_FILLED, version := requests[r].version + 1)];
        assert requests == q[r := requests[r]] && packages == p[r := packages[r]];
        ok := ReserveInventory(o, packages[r].lines);
      }
      if !ok {
        Rollback(b, w, q, p);
      }
      Settled(s, a, Db(), ok);
    }

    /** `_save_draft_approval`. */
    method SaveDraftApproval(r: int, posted: Posted, today: int, form: Form) returns (ok: bool)
      requires Valid()
      modifies this`batches, this`rows, this`requests, this`packages
      ensures Valid()
      ensures Executed(old(Db()), ASaveApproval(r, posted, today, form), Db(), ok)
    {
      hide StateValid, Prepared, Reserve, Executed, Positive, Release, ReceiveAll, SheetPasses, Strip, ApproveVersions;
      ghost var s, a := Db(), ASaveApproval(r, posted, today, form);
      var b, w, q, p := batches, rows, requests, packages;
      ok := MayApprove(r, posted);
      if ok {
        var o;
        ok, o := ProcessAllocations(r, packages[r].creator, today, form, false);
        if ok {
          packages := packages[r := packages[r].(version := packages[r].version + 1)];
          assert requests == q[r := requests[r]] && packages == p[r := packages[r]];
          ok := ReserveInventory(o, packages[r].lines);
        }
        if !ok {
          Rollback(b, w, q, p);
        }
      }
      Settled(s, a, Db(), ok);
    }

    /** `_approve_and_dispatch`: process the form, pass the gate, write the issue quantities, commit. */
    method ApproveAndDispatch(r: int, posted: Posted, today: int, form: Form) returns (ok: bool)
      requires Valid()
      modifies this`batches, this`rows, this`requests, this`packages
      ensures Valid()
      ensures Executed(old(Db()), AApprove(r, posted, today, form), Db(), ok)
    {
      hide StateValid, Prepared, Commit, Executed, Gate, Issued, Release, ReceiveAll, SheetPasses, Strip, ApproveVersions, AnyPositive;
      ghost var s, a := Db(), AApprove(r, posted, today, form);
      var b, w, q, p := batches, rows, requests, packages;
      ok := MayApprove(r, posted);
      if ok {
        var o;
        ok, o := ProcessAllocations(r, packages[r].creator, today, form, false);
        if ok {
          var items, lines := requests[r].items, packages[r].lines;
          var any := HasPositive(lines);
          ok := CheckGate(items, lines, any);
          if ok {
            var issued := IssueTotals(items, lines);
            packages := packages[r := packages[r].(dispatched := true, version := packages[r].version + 1)];
            requests := requests[r := requests[r].(items := issued, status := PART_FILLED, version := requests[r].version + 1)];
            assert requests == q[r := requests[r]] && packages == p[r := packages[r]];
            ok := CommitInventory(r);
          }
        }
        if !ok {
          Rollback(b, w, q, p);
        }
      }
      Settled(s, a, Db(), ok);
    }

    /** `_send_for_dispatch`: process a complete form and commit it at once. */
    method SendForDispatch(r: int, user: string, posted: Posted, today: int, form: Form) returns (ok: bool)
      requires Valid()
      modifies this`batches, this`rows, this`requests, this`packages
      ensures Valid()
      ensures Executed(old(Db()), ASend(r, user, posted, today, form), Db(), ok)
    {
      hide StateValid, Prepared, Commit, Executed, Release, ReceiveAll, SheetPasses, Strip, PrepareVersions;
      ghost var s, a := Db(), ASend(r, user, posted, today, form);
      var b, w, q, p := batches, rows, requests, packages;
      ok := MayPrepare(r, posted);
      if !ok {
        Settled(s, a, Db(), false);
        return;
      }
      FormAttempt(s, a);
      hide Attempt;
      var o;
      ok, o := ProcessAllocations(r, user, today, form, true);
      if ok {
        packages := packages[r := packages[r].(dispatched := true)];
        requests := requests[r := requests[r].(status := PART_FILLED, version := requests[r].version + 1)];
        assert requests == q[r := requests[r]] && packages == p[r := packages[r]];
        ok := CommitInventory(r);
      }
      if !ok {
        Rollback(b, w, q, p);
      }
      Settled(s, a, Db(), ok);
    }

    /** `review_approval` (POST): dispatch the package as it was last saved. */
    method ReviewApproval(r: int) returns (ok: bool)
      requires Valid()
      modifies this`batches, this`rows, this`requests, this`packages
      ensures Valid()
      ensures Executed(old(Db()), AReview(r), Db(), ok)
    {
      hide StateValid, Commit, Executed, Gate;
      ghost var s, a := Db(), AReview(r);
      var b, w, q, p := batches, rows, requests, packages;
      ok := r in requests && r in packages && !packages[r].dispatched;
      if ok {
        var items := requests[r].items;
        ok := CheckGate(items, packages[r].lines, exists i :: i in items && items[i].issue > 0);
        if ok {
          packages := packages[r := packages[r].(dispatched := true)];
          ok := CommitInventory(r);
          requests := requests[r := requests[r].(status := PART_FILLED, version := requests[r].version + 1)];
        }
        if !ok {
          Rollback(b, w, q, p);
        }
      }
      Settled(s, a, Db(), ok);
    }

    /** `cancel_preparation`: the lines go first, so the release finds none. */
    method CancelPreparation(r: int)
      requires Valid()
      modifies this`batches, this`rows, this`packages
      ensures Valid()
      ensures Executed(old(Db()), ACancel(r), Db(), true)
    {
      hide StateValid, Executed, Release;
      ghost var s, a := Db(), ACancel(r);
      if r in packages {
        packages := packages[r := packages[r].(lines := map[])];
      }
      ReleaseAllReservations(r);
      Settled(s, a, Db(), true);
    }

    // -------------------------------------------------------------- donation intake

    /** The create-or-update block for one validated item. */
    method ReceiveArrival(warehouse: int, a: Arrival)
      requires Labelled(batches)
      modifies this`batches, this`rows, this`nextBatch
      ensures Yard(Stock(batches, rows), nextBatch)
              == ReceiveOne(Yard(Stock(old(batches), old(rows)), old(nextBatch)), warehouse, a)
    {
      ghost var y := Yard(Stock(batches, rows), nextBatch);
      var found := None;
      if a.batchNo.None? {
        found := FindUnnumbered(batches, warehouse, a.item);
      }
      if found.Some? {
        var batch := batches[found.value];
        batches := batches[found.value := batch.(usable := batch.usable + a.usable,
                                                 defective := batch.defective + a.defective,
                                                 expired := batch.expired + a.expired)];
      } else {
        batches := batches[nextBatch := Batch(a.item, warehouse, a.batchNo, a.batchDate, a.expiry, a.uom, true,
                                              a.usable, 0, a.defective, a.expired)];
        nextBatch := nextBatch + 1;
      }
      var s := Slot(warehouse, a.item);
      if s in rows {
        var row := rows[s];
        rows := rows[s := row.(usable := row.usable + a.usable, defective := row.defective + a.defective,
                               expired := row.expired + a.expired)];
      } else {
        rows := rows[s := Row(true, a.usable, 0, a.defective, a.expired)];
      }
      if found.Some? {
        UnnumberedIsUnique(y, warehouse, a, found.value);
      }
    }

    /** The loop over the validated items. */
    method ReceiveArrivals(warehouse: int, arrivals: seq<Arrival>)
      requires Labelled(batches) && forall id :: id in batches ==> id < nextBatch
      requires forall j :: 0 <= j < |arrivals| ==> ArrivalFits(batches, arrivals[j])
      requires forall j, k :: 0 <= j < k < |arrivals| ==> arrivals[j].item != arrivals[k].item
      modifies this`batches, this`rows, this`nextBatch
      ensures Yard(Stock(batches, rows), nextBatch)
              == ReceiveAll(Yard(Stock(old(batches), old(rows)), old(nextBatch)), warehouse, arrivals)
    {
      hide Labelled, ReceiveOne;
      var i := 0;
      ghost var y := Yard(Stock(batches, rows), nextBatch);
      assert arrivals[..0] == [];
      while i < |arrivals|
        invariant 0 <= i <= |arrivals|
        invariant Yard(Stock(batches, rows), nextBatch) == ReceiveAll(y, warehouse, arrivals[..i])
        invariant Labelled(batches)
      {
        ReceiveArrival(warehouse, arrivals[i]);
        assert arrivals[..i + 1][..i] == arrivals[..i];
        ReceiveAllKeepsLabels(y, warehouse, arrivals[..i + 1]);
        i := i + 1;
      }
      assert arrivals[..i] == arrivals;
    }

    /** `intake_form` (POST) and `_process_intake_submission`: all of it, or nothing. */
    method TakeIn(d: int, warehouse: int, today: int, sheet: Sheet) returns (ok: bool)
      requires Valid()
      modifies this`batches, this`rows, this`nextBatch, this`donations, this`intakes
      ensures Valid()
      ensures Executed(old(Db()), ATakeIn(d, warehouse, today, sheet), Db(), ok)
    {
      hide Executed, SheetPasses, Labelled, ArrivalFits, ReceiveAll, Arrivals;
      ghost var s, a := Db(), ATakeIn(d, warehouse, today, sheet);
      ok := d in donations && donations[d].status.Verified? && (d, warehouse) !in intakes;
      if ok {
        var items := donations[d].items;
        var errors, arrivals := ValidateSheet(batches, catalog, today, sheet, items);
        ok := errors == 0;
        if ok {
          IntakeReady(s, d, today, sheet);
          ReceiveArrivals(warehouse, arrivals);
          intakes := intakes + {(d, warehouse)};
          donations := donations[d := donations[d].(status := Processed)];
        }
      }
      hide Good;
      Settled(s, a, Db(), ok);
    }

    // -------------------------------------------------------------- request lifecycle

    /** `create_draft_request`; `user` is the user name found for the creator's address, if any. */
    method CreateDraftRequest(user: Option<string>) returns (r: Option<int>)
      requires Valid()
      modifies this`requests, this`nextRequest
      ensures Valid() && Executed(old(Db()), ACreate(user), Db(), r.Some?)
      ensures r.Some? <==> user.Some?
      ensures r.Some? ==> r.value !in old(requests) && requests.Keys == old(requests).Keys + {r.value}
      ensures SparesSubmitted(old(requests), requests)
    {
      hide StateValid;
      ghost var s := Db();
      RequestNumbers(s);
      r := None;
      if user.Some? {
        r := Some(nextRequest);
        requests := requests[nextRequest := Request(DRAFT, None, None, map[], 1)];
        nextRequest := nextRequest + 1;
      }
      Settled(s, ACreate(user), Db(), r.Some?);
    }

    /** `add_or_update_request_item` behind the checks of its page. */
    method EditItem(r: int, item: int, qty: Qty, need: Need) returns (ok: bool)
      requires Valid()
      modifies this`requests
      ensures Valid() && Executed(old(Db()), AEditItem(r, item, qty, need), Db(), ok)
      ensures SparesSubmitted(old(requests), requests)
      ensures ok ==> r in requests && item in requests[r].items && requests[r].items[item] == ReqItem(qty, 0, Requested)
    {
      hide StateValid;
      ghost var s := Db();
      ok := r in requests && requests[r].status == DRAFT && item in catalog && catalog[item].active && qty > 0
            && (need.urgency == 'L' || need.urgency == 'M' || need.urgency == 'H' || need.urgency == 'C')
            && !((need.urgency == 'H' || need.urgency == 'C') && need.requiredBy.None?)
            && !(need.urgency == 'H' && Strip(need.reason) == "");
      if ok {
        DraftsAreUntouched(s, r);
        var items := requests[r].items;
        if item in items {
          items := items[item := items[item].(request := qty)];
        } else {
          items := items[item := ReqItem(qty, 0, Requested)];
        }
        requests := requests[r := requests[r].(items := items)];
      }
      Settled(s, AEditItem(r, item, qty, need), Db(), ok);
    }

    /** `delete_request_item`: a second call finds nothing to delete. */
    method DeleteItem(r: int, item: int) returns (ok: bool)
      requires Valid()
      modifies this`requests
      ensures Valid() && Executed(old(Db()), ADeleteItem(r, item), Db(), ok)
      ensures SparesSubmitted(old(requests), requests)
      ensures !Commits(Db(), ADeleteItem(r, item))
    {
      hide StateValid;
      ghost var s := Db();
      ok := r in requests && requests[r].status == DRAFT && item in requests[r].items;
      if ok {
        requests := requests[r := requests[r].(items := requests[r].items - {item})];
      }
      Settled(s, ADeleteItem(r, item), Db(), ok);
    }

    /** `cancel_request`: only a draft can be withdrawn, and then it is gone. */
    method CancelRequest(r: int) returns (ok: bool)
      requires Valid()
      modifies this`requests
      ensures Valid() && Executed(old(Db()), ACancelRequest(r), Db(), ok)
      ensures SparesSubmitted(old(requests), requests)
      ensures ok <==> r in old(requests) && old(requests)[r].status == DRAFT
      ensures ok ==> r !in requests
    {
      hide StateValid;
      ghost var s := Db();
      ok := r in requests && requests[r].status == DRAFT;
      if ok {
        requests := requests - {r};
      }
      Settled(s, ACancelRequest(r), Db(), ok);
    }

    /** `submit_request`: nothing can be submitted, edited, emptied or withdrawn once it has gone out. */
    method SubmitRequest(r: int, version: int) returns (ok: bool)
      requires Valid()
      modifies this`requests
      ensures Valid() && Executed(old(Db()), ASubmitRequest(r, version), Db(), ok)
      ensures SparesSubmitted(old(requests), requests)
      ensures ok ==> r in requests && requests[r].items == old(requests)[r].items != map[]
      ensures ok ==> forall a: Action :: (a.AEditItem? || a.ADeleteItem? || a.ACancelRequest? || a.ASubmitRequest?) && a.r == r
                                 ==> !Commits(Db(), a)
    {
      hide StateValid;
      ghost var s := Db();
      ok := r in requests && requests[r].status == DRAFT;
      if ok {
        var rq := requests[r];
        ok := (exists i :: i in rq.items && rq.items[i].request > 0) && rq.version == version;
        if ok {
          requests := requests[r := rq.(status := AWAITING_APPROVAL, version := rq.version + 1)];
        }
      }
      Settled(s, ASubmitRequest(r, version), Db(), ok);
    }

    /** `submit_eligibility_decision`; `reviewer` is the user name found for the reviewer's address, if any. A
        request is decided once, and packages are prepared only after a decision in its favour. */
    method SubmitEligibilityDecision(r: int, decision: char, reason: Option<string>, reviewer: Option<string>)
      returns (ok: bool)
      requires Valid()
      modifies this`requests
      ensures Valid() && Executed(old(Db()), ADecide(r, decision, reason, reviewer), Db(), ok)
      ensures ok ==> forall a: Action :: a.ADecide? && a.r == r ==> !Commits(Db(), a)
      ensures ok ==> (Packable(Db(), r) <==> decision == 'Y')
    {
      hide StateValid;
      ghost var s := Db();
      var text := if reason.Some? then Strip(reason.value) else "";
      ok := r in requests && requests[r].status == AWAITING_APPROVAL && requests[r].reviewer.None?
            && (decision == 'Y' || decision == 'N') && !(decision == 'N' && text == "")
            && reviewer.Some?;
      if ok {
        var rq := requests[r].(reviewer := reviewer);
        if decision == 'N' {
          rq := rq.(status := INELIGIBLE, reason := Some(text));
        } else {
          rq := rq.(status := SUBMITTED);
        }
        requests := requests[r := rq.(version := rq.version + 1)];
      }
      Settled(s, ADecide(r, decision, reason, reviewer), Db(), ok);
    }

    // -------------------------------------------------------------- the item page

    /** `edit_item` (POST) once its text fields have passed: of two pages opened on one version, one is saved. */
    method EditCatalog(item: int, version: int, canExpire: bool, active: bool) returns (ok: bool)
      requires Valid()
      modifies this`catalog
      ensures Valid() && Executed(old(Db()), AEditCatalog(item, version, canExpire, active), Db(), ok)
      ensures ok ==> forall a: Action :: a.AEditCatalog? && a.item == item && a.version == version ==> !Commits(Db(), a)
      ensures catalog.Keys == old(catalog).Keys
    {
      hide StateValid;
      ghost var s := Db();
      ok := item in catalog && catalog[item].version == version;
      if ok {
        catalog := catalog[item := CatalogItem(canExpire, active, version + 1)];
      }
      Settled(s, AEditCatalog(item, version, canExpire, active), Db(), ok);
    }
  }
}
