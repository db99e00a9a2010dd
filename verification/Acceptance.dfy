/** Exactly which posted forms and stored packages the handlers accept. */
module Acceptance {
  import opened Sums
  import opened Stock
  import opened ItemStatuses
  import opened Packaging
  import opened Workflow
  import opened Safety
  import opened Reservations
  import opened Ledger

  // ---------------------------------------------------------------- saving

  /** A draft is saved whenever the page is current and the form passes: the reservation never refuses it. */
  lemma SaveCommitsIff(s: State, r: int, user: string, posted: Posted, today: int, form: Form)
    requires Good(s)
    ensures Commits(s, ASaveDraft(r, user, posted, today, form))
            <==> Packable(s, r) && PrepareVersions(s, r, posted) && Prepared(s, r, today, form, false).Some?
  {
    hide Good, Prepared, Reserve, PrepareVersions;
    if Packable(s, r) && Prepared(s, r, today, form, false).Some? {
      ValidatedFormIsReserved(s, r, today, form, false);
    }
  }

  lemma ApprovalSaveCommitsIff(s: State, r: int, posted: Posted, today: int, form: Form)
    requires Good(s)
    ensures Commits(s, ASaveApproval(r, posted, today, form))
            <==> HasPending(s, r) && ApproveVersions(s, r, posted) && Prepared(s, r, today, form, false).Some?
  {
    hide Good, Prepared, Reserve, ApproveVersions;
    if HasPending(s, r) && Prepared(s, r, today, form, false).Some? {
      ValidatedFormIsReserved(s, r, today, form, false);
    }
  }

  /** A submission is accepted exactly when the same officer could save the form as a draft and there is no package
      yet, or a pending one of the officer's own. */
  lemma SubmitCommitsIff(s: State, r: int, user: string, posted: Posted, today: int, form: Form)
    requires Good(s)
    ensures Commits(s, ASubmit(r, user, posted, today, form))
            <==> && Commits(s, ASaveDraft(r, user, posted, today, form))
                 && (r in s.packages ==> !s.packages[r].dispatched && s.packages[r].creator == user)
  {
    SaveCommitsIff(s, r, user, posted, today, form);
    hide Good, Prepared, Reserve, PrepareVersions;
    if Packable(s, r) && Prepared(s, r, today, form, false).Some? {
      ValidatedFormIsReserved(s, r, today, form, false);
    }
  }

  // ---------------------------------------------------------------- sending

  /** The item is filled by the form, or the form posts a status that excuses a smaller quantity. */
  ghost predicate Settles(form: Form, item: int, request: Qty) {
    || PickedTotal(form, item) >= request
    || (item in form.statuses
        && form.statuses[item] in {Unavailable, Denied, Waiting, LimitAllowed, PartlyFilled})
  }

  lemma CompleteFormIff(batches: map<int, Batch>, today: int, active: set<Status>, o: Lines,
                        items: map<int, ReqItem>, form: Form)
    ensures FormPasses(batches, today, active, o, items, form, true)
            <==> && FormPasses(batches, today, active, o, items, form, false)
                 && forall i :: i in items ==> Settles(form, i, items[i].request)
  {
    hide PickedTotal, PickPasses, TransitionValid;
    forall i | i in items
      ensures ItemPasses(active, o, form, true, i, items[i], PickedTotal(form, i))
              <==> ItemPasses(active, o, form, false, i, items[i], PickedTotal(form, i)) && Settles(form, i, items[i].request)
    {
    }
    hide ItemPasses, Settles;
  }

  lemma CompletePreparedIff(s: State, r: int, today: int, form: Form)
    requires r in s.requests
    ensures Prepared(s, r, today, form, true).Some?
            <==> && Prepared(s, r, today, form, false).Some?
                 && forall i :: i in s.requests[r].items ==> Settles(form, i, s.requests[r].items[i].request)
    ensures Prepared(s, r, today, form, true).Some? ==> Prepared(s, r, today, form, true) == Prepared(s, r, today, form, false)
  {
    hide FormPasses, Settles, ItemsAfter, LinesAfter;
    CompleteFormIff(s.stock.batches, today, s.statuses, OldLines(s, r), s.requests[r].items, form);
  }

  /** Sending directly is refused unless every item of the request is filled or excused. */
  lemma SendIsComplete(s: State, a: Action, item: int)
    requires a.ASend? && Commits(s, a) && a.r in s.requests && item in s.requests[a.r].items
    ensures Settles(a.form, item, s.requests[a.r].items[item].request)
  {
    hide Prepared, Settles, Commit, PrepareVersions;
    CompletePreparedIff(s, a.r, a.today, a.form);
  }

  /** A processed form of a package that is not dispatched can be committed in an exact ledger. */
  lemma PreparedCommits(s: State, r: int, today: int, form: Form)
    requires Good(s) && Exact(s) && r in s.requests && (r in s.packages ==> !s.packages[r].dispatched)
    requires Prepared(s, r, today, form, false).Some?
    ensures Commit(s.stock, Prepared(s, r, today, form, false).value.lines).Some?
  {
    var lines := Prepared(s, r, today, form, false).value.lines;
    forall k | k in lines ensures LinePasses(s.stock.batches, lines, k) {
      PreparedLineFits(s, r, today, form, k);
    }
    hide Prepared, LinePasses;
  }

  lemma PreparedLineFits(s: State, r: int, today: int, form: Form, k: LineKey)
    requires Good(s) && Exact(s) && r in s.requests && (r in s.packages ==> !s.packages[r].dispatched)
    requires Prepared(s, r, today, form, false).Some? && k in Prepared(s, r, today, form, false).value.lines
    ensures LinePasses(s.stock.batches, Prepared(s, r, today, form, false).value.lines, k)
  {
    var items := s.requests[r].items.Keys;
    LinesAfterAt(s.stock.batches, items, form, k);
    var p := Pick(k.item, k.batch);
    assert PickPasses(s.stock.batches, today, OldLines(s, r), p, form.picks[p]);
    PendingClaim(s, r, k.batch);
  }

  /** Sending directly is accepted exactly when the form could be saved as a draft and fills or excuses every item. */
  lemma SendCommitsIff(s: State, r: int, user: string, posted: Posted, today: int, form: Form)
    requires Good(s) && Exact(s) && (r in s.packages ==> !s.packages[r].dispatched)
    ensures Commits(s, ASend(r, user, posted, today, form))
            <==> && Commits(s, ASaveDraft(r, user, posted, today, form))
                 && r in s.requests
                 && forall i :: i in s.requests[r].items ==> Settles(form, i, s.requests[r].items[i].request)
  {
    SaveCommitsIff(s, r, user, posted, today, form);
    hide Good, Exact, Prepared, Settles, Commit, Reserve, PrepareVersions;
    if Packable(s, r) {
      CompletePreparedIff(s, r, today, form);
      if Prepared(s, r, today, form, false).Some? {
        PreparedCommits(s, r, today, form);
      }
    }
  }

  // ---------------------------------------------------------------- the gated dispatches

  predicate MarkedUnavailable(s: Status) {
    s in {Unavailable, Denied, Waiting}
  }

  lemma GateIff(items: map<int, ReqItem>, lines: Lines, any: bool)
    ensures Gate(items, lines, any)
            <==> && (forall i :: i in items ==> items[i].issue == LineTotal(lines, i))
                 && ((any && exists k :: k in lines) || forall i :: i in items ==> MarkedUnavailable(items[i].status))
  {
    hide LineTotal;
    assert AllUnavailable(items) <==> forall i :: i in items ==> MarkedUnavailable(items[i].status);
    forall i | i in items ensures !Mismatch(items[i].issue, LineTotal(lines, i)) <==> items[i].issue == LineTotal(lines, i) {
    }
  }

  /** Reviewing goes through exactly when every issue quantity is what the package holds and something is issued, or
      every item is marked unavailable: then an empty package is dispatched too. */
  lemma ReviewCommitsIff(s: State, r: int)
    requires Good(s) && Exact(s)
    ensures Commits(s, AReview(r))
            <==> && r in s.requests && r in s.packages && !s.packages[r].dispatched
                 && var items, lines := s.requests[r].items, s.packages[r].lines;
                 && (forall i :: i in items ==> items[i].issue == LineTotal(lines, i))
                 && ((exists i :: i in items && items[i].issue > 0) || forall i :: i in items ==> MarkedUnavailable(items[i].status))
  {
    hide Good, Exact, Gate, Commit, LineTotal, MarkedUnavailable, AnyIssued;
    if HasPending(s, r) {
      PendingCommits(s, r);
      ReviewGateIff(s.requests[r].items, s.packages[r].lines);
    }
  }

  lemma ReviewGateIff(items: map<int, ReqItem>, lines: Lines)
    ensures Gate(items, lines, AnyIssued(items))
            <==> && (forall i :: i in items ==> items[i].issue == LineTotal(lines, i))
                 && ((exists i :: i in items && items[i].issue > 0) || forall i :: i in items ==> MarkedUnavailable(items[i].status))
  {
    hide Gate, LineTotal, MarkedUnavailable;
    GateIff(items, lines, AnyIssued(items));
    if (forall i :: i in items ==> items[i].issue == LineTotal(lines, i)) && AnyIssued(items) {
      var i :| i in items && items[i].issue > 0;
      HoldsSome(lines, i);
    }
  }

  lemma HoldsSome(lines: Lines, item: int)
    requires LineTotal(lines, item) > 0
    ensures exists k :: k in lines
  {
    assert (forall k :: k !in lines) ==> LinesOf(lines, item) == map[];
  }

  /** The status a form leaves an item with. */
  ghost function LeftWith(form: Form, item: int, request: Qty): Status {
    ChosenStatus(form, item, PickedTotal(form, item), request)
  }

  /** Approving goes through exactly when the form could be saved in the approval page, every status it leaves tells
      the truth about the picked total, and something is picked or every item is left unavailable. */
  lemma ApproveCommitsIff(s: State, r: int, posted: Posted, today: int, form: Form)
    requires Good(s) && Exact(s)
    ensures Commits(s, AApprove(r, posted, today, form))
            <==> && Commits(s, ASaveApproval(r, posted, today, form))
                 && r in s.requests
                 && var items := s.requests[r].items;
                 && (forall i :: i in items ==>
                       Truthful(LeftWith(form, i, items[i].request), PickedTotal(form, i), items[i].request))
                 && ((exists p :: p in form.picks && p.item in items && form.picks[p] > 0)
                     || forall i :: i in items ==> MarkedUnavailable(LeftWith(form, i, items[i].request)))
  {
    hide Good, Exact, Prepared, Commit, Commits, ApproveVersions, Gate, Truthful, MarkedUnavailable, LeftWith, AnyPositive;
    ApprovalSaveCommitsIff(s, r, posted, today, form);
    ApprovalCommitsIff(s, r, posted, today, form);
    if HasPending(s, r) && Prepared(s, r, today, form, false).Some? {
      PreparedCommits(s, r, today, form);
      PreparedGateIff(s, r, today, form);
    }
  }

  lemma ApprovalCommitsIff(s: State, r: int, posted: Posted, today: int, form: Form)
    ensures Commits(s, AApprove(r, posted, today, form))
            <==> && HasPending(s, r) && ApproveVersions(s, r, posted)
                 && var d := Prepared(s, r, today, form, false);
                 && d.Some? && Gate(d.value.items, d.value.lines, AnyPositive(d.value.lines))
                 && Commit(s.stock, d.value.lines).Some?
  {
    hide Prepared, Commit, ApproveVersions, Gate, Issued, AnyPositive;
  }

  lemma PreparedGateIff(s: State, r: int, today: int, form: Form)
    requires r in s.requests && Prepared(s, r, today, form, false).Some?
    ensures var items := s.requests[r].items;
            var d := Prepared(s, r, today, form, false).value;
            Gate(d.items, d.lines, AnyPositive(d.lines))
            <==> && (forall i :: i in items ==>
                       Truthful(LeftWith(form, i, items[i].request), PickedTotal(form, i), items[i].request))
                 && ((exists p :: p in form.picks && p.item in items && form.picks[p] > 0)
                     || forall i :: i in items ==> MarkedUnavailable(LeftWith(form, i, items[i].request)))
  {
    var items := s.requests[r].items;
    var d := Prepared(s, r, today, form, false).value;
    PositivePicksIff(s, r, today, form);
    forall p | p in form.picks && p.item in items.Keys ensures p.batch in s.stock.batches {
      assert PickPasses(s.stock.batches, today, OldLines(s, r), p, form.picks[p]);
    }
    hide Prepared, LinesAfter, PickedTotal, Gate, LineTotal, Truthful, MarkedUnavailable;
    GateIff(d.items, d.lines, AnyPositive(d.lines));
    PreparedParts(s, r, today, form);
    forall i | i in items
      ensures d.items[i].status == LeftWith(form, i, items[i].request)
      ensures d.items[i].issue == LineTotal(d.lines, i)
              <==> Truthful(LeftWith(form, i, items[i].request), PickedTotal(form, i), items[i].request)
    {
      ProcessedTotals(s.stock.batches, items.Keys, form, i);
      IssueIsTotalIffTruthful(LeftWith(form, i, items[i].request), PickedTotal(form, i), items[i].request);
    }
    assert AnyPositive(d.lines) ==> exists k :: k in d.lines;
  }

  lemma PreparedParts(s: State, r: int, today: int, form: Form)
    requires r in s.requests && Prepared(s, r, today, form, false).Some?
    ensures var d := Prepared(s, r, today, form, false).value;
            d.items == ItemsAfter(s.requests[r].items, form) && d.lines == LinesAfter(s.stock.batches, s.requests[r].items.Keys, form)
  {
    hide FormPasses, ItemsAfter, LinesAfter;
  }

  lemma PositivePicksIff(s: State, r: int, today: int, form: Form)
    requires r in s.requests && Prepared(s, r, today, form, false).Some?
    ensures AnyPositive(Prepared(s, r, today, form, false).value.lines)
            <==> exists p :: p in form.picks && p.item in s.requests[r].items && form.picks[p] > 0
  {
    var items := s.requests[r].items.Keys;
    var lines := LinesAfter(s.stock.batches, items, form);
    if AnyPositive(lines) {
      var k :| k in lines && lines[k] > 0;
      LinesAfterAt(s.stock.batches, items, form, k);
    }
    if p :| p in form.picks && p.item in s.requests[r].items && form.picks[p] > 0 {
      assert PickPasses(s.stock.batches, today, OldLines(s, r), p, form.picks[p]);
      LinesAfterAt(s.stock.batches, items, form, LineFor(s.stock.batches, p));
      assert lines[LineFor(s.stock.batches, p)] > 0;
    }
  }

  // ---------------------------------------------------------------- submitting a request

  /** A draft is submitted exactly when it has items and the posted version is the current one. */
  lemma SubmitRequestCommitsIff(s: State, r: int, version: int)
    requires Good(s)
    ensures Commits(s, ASubmitRequest(r, version))
            <==> r in s.requests && s.requests[r].status == 0 && s.requests[r].items != map[] && version == s.requests[r].version
  {
    if r in s.requests && s.requests[r].items != map[] {
      assert RequestSound(s.requests[r]);
      var i := SomeKey(s.requests[r].items);
      assert Agrees(s.requests[r].items[i]);
    }
  }

  /** Stripping cuts off the spaces at both ends of a text and nothing else. */
  lemma {:induction false} StripTrims(t: string) returns (i: nat, j: nat)
    ensures i <= j <= |t| && Strip(t) == t[i..j]
    ensures forall k :: 0 <= k < |t| && (k < i || j <= k) ==> t[k] in " \t\n\r"
    ensures i < j ==> t[i] !in " \t\n\r" && t[j - 1] !in " \t\n\r"
  {
    i := LeftTrims(t);
    var m := RightTrims(t[i..]);
    j := i + m;
    assert t[i..][..m] == t[i..j];
    forall k | j <= k < |t| ensures t[k] in " \t\n\r" {
      assert t[k] == t[i..][k - i];
    }
  }

  lemma {:induction false} LeftTrims(t: string) returns (i: nat)
    ensures i <= |t| && StripLeft(t) == t[i..]
    ensures forall k :: 0 <= k < i ==> t[k] in " \t\n\r"
    ensures i < |t| ==> t[i] !in " \t\n\r"
    decreases |t|
  {
    if t == "" || !IsSpace(t[0]) {
      i := 0;
    } else {
      var n := LeftTrims(t[1..]);
      i := n + 1;
      assert t[1..][n..] == t[i..];
      forall k | 0 <= k < i ensures t[k] in " \t\n\r" {
        assert k > 0 ==> t[k] == t[1..][k - 1];
      }
    }
  }

  lemma {:induction false} RightTrims(t: string) returns (j: nat)
    ensures j <= |t| && StripRight(t) == t[..j]
    ensures forall k :: j <= k < |t| ==> t[k] in " \t\n\r"
    ensures 0 < j ==> t[j - 1] !in " \t\n\r"
    decreases |t|
  {
    if t == "" || !IsSpace(t[|t| - 1]) {
      j := |t|;
    } else {
      j := RightTrims(t[..|t| - 1]);
      assert t[..|t| - 1][..j] == t[..j];
    }
  }
}
