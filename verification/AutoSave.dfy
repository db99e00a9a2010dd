/** Automatic allocation end to end: saving a draft with the proposed lines, from any state a run can reach. */
module AutoSave {
  import opened Stock
  import opened ItemStatuses
  import opened Filling
  import opened Allocation
  import opened Packaging
  import opened Intake
  import opened Workflow
  import opened Safety
  import opened Reservations
  import opened BatchNumbers
  import opened AutoAllocation
  import opened Acceptance

  /** The answer of the query for one item, the item's flags, and the quantity asked for. */
  datatype Proposal = Proposal(warehouse: Option<int>, uom: Option<string>, list: seq<Held>, item: Item, want: Qty)

  ghost function ProposalForm(p: Proposal, today: int, i: int): Form {
    AutoForm(p.list, p.item, today, p.want, i)
  }

  /** The form after automatic allocation of the items in `ps`, with every status left to be calculated. */
  ghost function ProposedForm(ps: map<int, Proposal>, today: int): Form {
    var fields := set i, p | i in ps && p in ProposalForm(ps[i], today, i).picks :: p;
    Form(map p | p in fields && p.item in ps && p in ProposalForm(ps[p.item], today, p.item).picks
           :: ProposalForm(ps[p.item], today, p.item).picks[p], map[])
  }

  /** What is proposed for one item: as much of the demand as live stock covers. */
  ghost function Proposed(ps: map<int, Proposal>, today: int, i: int): Qty {
    if i in ps then Min(ps[i].want, Total(Avails(SortByRule(ps[i].list, ps[i].item, today)))) else 0
  }

  /** Proposals for items of request `r`, made from the current tables and within the request. */
  ghost predicate Proposes(s: State, open: set<int>, r: int, ps: map<int, Proposal>)
    requires r in s.requests
  {
    forall i :: i in ps ==>
      && Answers(s.stock, open, i, ps[i].warehouse, ps[i].uom, ps[i].list)
      && ps[i].item.canExpire == CanExpire(s.catalog, i)
      && i in s.requests[r].items && 0 <= ps[i].want <= s.requests[r].items[i].request
  }

  /** The calculated status may replace the current one. */
  predicate StatusFollows(active: set<Status>, o: Lines, i: int, ri: ReqItem, total: Qty) {
    var next := CalculatedStatus(total, ri.request);
    || next == ri.status
    || (next in active && (total == 0 ==> forall k :: k in o ==> k.item != i))
  }

  /** The proposed fields of one item are valid and hold the proposed quantity. */
  lemma ProposalPasses(s: State, open: set<int>, today: int, r: int, ps: map<int, Proposal>, i: int, p: Pick)
    requires Good(s) && DatesFit(s) && r in s.requests && Proposes(s, open, r, ps) && i in ps
    requires p in ProposalForm(ps[i], today, i).picks
    ensures p.item == i && ProposalForm(ps[i], today, i).picks[p] > 0
    ensures PickPasses(s.stock.batches, today, OldLines(s, r), p, ProposalForm(ps[i], today, i).picks[p])
  {
    var a := ps[i];
    assert Answers(s.stock, open, i, a.warehouse, a.uom, a.list);
    OldLinesSound(s, r);
    GoodIsSound(s);
    hide Good, AutoForm, Answers, Sound;
    var h := LineStems(s.stock, open, i, a.warehouse, a.uom, a.list, a.item, today, a.want, p);
    AutoLineValidIff(s.stock, open, i, a.warehouse, a.uom, a.list, a.item, today, a.want, p);
  }

  lemma ProposalFields(s: State, open: set<int>, today: int, r: int, ps: map<int, Proposal>, i: int)
    requires Good(s) && DatesFit(s) && r in s.requests && Proposes(s, open, r, ps)
    ensures PicksOf(ProposedForm(ps, today).picks, i) == if i in ps then ProposalForm(ps[i], today, i).picks else map[]
  {
    if i in ps {
      hide Good, DatesFit, ProposalForm, PickPasses;
      forall p | p in ProposalForm(ps[i], today, i).picks ensures p in PicksOf(ProposedForm(ps, today).picks, i) {
        ProposalPasses(s, open, today, r, ps, i, p);
      }
    }
  }

  lemma ProposalTotal(s: State, open: set<int>, today: int, r: int, ps: map<int, Proposal>, i: int)
    requires Good(s) && DatesFit(s) && r in s.requests && Proposes(s, open, r, ps)
    requires i in s.requests[r].items
    ensures PickedTotal(ProposedForm(ps, today), i) == Proposed(ps, today, i) <= s.requests[r].items[i].request
    ensures (exists p :: p in ProposedForm(ps, today).picks && p.item == i) ==> Proposed(ps, today, i) > 0
  {
    hide ProposedForm;
    ProposalFields(s, open, today, r, ps, i);
    assert RequestSound(s.requests[r]) && Agrees(s.requests[r].items[i]);
    var picks := PicksOf(ProposedForm(ps, today).picks, i);
    if i in ps {
      var a := ps[i];
      assert DistinctIds(a.list);
      AutoTotal(a.list, a.item, today, a.want, i);
      forall p | p in picks ensures p.item == i && picks[p] > 0 {
        ProposalPasses(s, open, today, r, ps, i, p);
      }
      assert PicksOf(picks, i) == picks;
      hide Good, DatesFit, Proposes, AutoForm, SortByRule;
      if p :| p in ProposedForm(ps, today).picks && p.item == i {
        assert p in picks;
        Sums.SumAtLeast(picks, p);
      }
    } else {
      assert forall p :: p in ProposedForm(ps, today).picks && p.item == i ==> p in picks;
    }
  }

  /** A status left to be calculated passes exactly when it may replace the current one. */
  lemma CalculatedPassesIff(active: set<Status>, o: Lines, form: Form, i: int, ri: ReqItem, total: Qty)
    requires i !in form.statuses && total <= ri.request && 0 < ri.request
    requires (exists p :: p in form.picks && p.item == i) ==> total > 0
    ensures ItemPasses(active, o, form, false, i, ri, total) <==> StatusFollows(active, o, i, ri, total)
  {
  }

  lemma ProposedPicksPass(s: State, open: set<int>, today: int, r: int, ps: map<int, Proposal>, p: Pick)
    requires Good(s) && DatesFit(s) && r in s.requests && Proposes(s, open, r, ps)
    requires p in ProposedForm(ps, today).picks
    ensures PickPasses(s.stock.batches, today, OldLines(s, r), p, ProposedForm(ps, today).picks[p])
  {
    hide Good, DatesFit, Proposes, ProposalForm, PickPasses;
    ProposalPasses(s, open, today, r, ps, p.item, p);
  }

  lemma ProposedStatuses(ps: map<int, Proposal>, today: int)
    ensures ProposedForm(ps, today).statuses == map[]
  {
  }

  lemma PreparedIff(s: State, r: int, today: int, form: Form)
    requires r in s.requests
    requires forall p :: p in form.picks ==> PickPasses(s.stock.batches, today, OldLines(s, r), p, form.picks[p])
    ensures Prepared(s, r, today, form, false).Some?
            <==> forall i :: i in s.requests[r].items ==>
                   ItemPasses(s.statuses, OldLines(s, r), form, false, i, s.requests[r].items[i], PickedTotal(form, i))
  {
    hide PickPasses, ItemPasses, PickedTotal, LinesAfter, ItemsAfter;
  }

  lemma RequestsArePositive(s: State, r: int, i: int)
    requires Good(s) && r in s.requests && i in s.requests[r].items
    ensures 0 < s.requests[r].items[i].request
  {
    assert RequestSound(s.requests[r]);
  }

  /** The form passes exactly when every calculated status may replace the current one. */
  lemma ProposedFormPassesIff(s: State, open: set<int>, today: int, r: int, ps: map<int, Proposal>)
    requires Good(s) && DatesFit(s) && r in s.requests && Proposes(s, open, r, ps)
    ensures Prepared(s, r, today, ProposedForm(ps, today), false).Some?
            <==> forall i :: i in s.requests[r].items ==>
                   StatusFollows(s.statuses, OldLines(s, r), i, s.requests[r].items[i], Proposed(ps, today, i))
  {
    hide *;
    ProposedStatuses(ps, today);
    var form, o, items := ProposedForm(ps, today), OldLines(s, r), s.requests[r].items;
    forall p | p in form.picks ensures PickPasses(s.stock.batches, today, o, p, form.picks[p]) {
      ProposedPicksPass(s, open, today, r, ps, p);
    }
    forall i | i in items
      ensures ItemPasses(s.statuses, o, form, false, i, items[i], PickedTotal(form, i))
              <==> StatusFollows(s.statuses, o, i, items[i], Proposed(ps, today, i))
    {
      RequestsArePositive(s, r, i);
      ProposalTotal(s, open, today, r, ps, i);
      CalculatedPassesIff(s.statuses, o, form, i, items[i], Proposed(ps, today, i));
    }
    PreparedIff(s, r, today, form);
  }

  /** Saving a draft with automatically proposed lines, over any earlier lines of the package, commits if and only
      if the page was current and every calculated status may replace the current one. For a request without a
      package only the three calculated statuses have to be active. */
  lemma AutoSaveCommitsIff(s: State, open: set<int>, r: int, user: string, posted: Posted, today: int, ps: map<int, Proposal>)
    requires Good(s) && DatesFit(s) && r in s.requests && Proposes(s, open, r, ps)
    ensures Commits(s, ASaveDraft(r, user, posted, today, ProposedForm(ps, today)))
            <==> && Packable(s, r) && PrepareVersions(s, r, posted)
                 && forall i :: i in s.requests[r].items ==>
                      StatusFollows(s.statuses, OldLines(s, r), i, s.requests[r].items[i], Proposed(ps, today, i))
    ensures {Requested, PartlyFilled, Filled} <= s.statuses && r !in s.packages
            ==> (Commits(s, ASaveDraft(r, user, posted, today, ProposedForm(ps, today)))
                 <==> Packable(s, r) && PrepareVersions(s, r, posted))
  {
    hide Good, DatesFit, Proposes, ProposedForm, Prepared, Proposed, Commits, PrepareVersions;
    ProposedFormPassesIff(s, open, today, r, ps);
    SaveCommitsIff(s, r, user, posted, today, ProposedForm(ps, today));
    if r !in s.packages {
      assert OldLines(s, r) == map[];
    }
  }

  /** The same after every run of a new installation that undates no item. */
  lemma AutoSaveOnRuns(catalog: Catalog, statuses: set<Status>, actions: seq<Action>, open: set<int>, r: int, user: string,
                       posted: Posted, today: int, ps: map<int, Proposal>)
    requires UndatesNowhere(Empty(catalog, statuses), actions)
    requires r in Run(Empty(catalog, statuses), actions).requests
    requires Proposes(Run(Empty(catalog, statuses), actions), open, r, ps)
    ensures var s := Run(Empty(catalog, statuses), actions);
            Commits(s, ASaveDraft(r, user, posted, today, ProposedForm(ps, today)))
            <==> && Packable(s, r) && PrepareVersions(s, r, posted)
                 && forall i :: i in s.requests[r].items ==>
                      StatusFollows(s.statuses, OldLines(s, r), i, s.requests[r].items[i], Proposed(ps, today, i))
  {
    var e := Empty(catalog, statuses);
    EmptyIsGood(catalog, statuses);
    assert DatesFit(e);
    hide Good, DatesFit, Exec, Proposes, ProposedForm, Commits;
    RunKeepsGood(e, actions);
    RunKeepsExpiry(e, actions);
    AutoSaveCommitsIff(Run(e, actions), open, r, user, posted, today, ps);
  }
}
