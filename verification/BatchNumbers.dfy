/** What batches keep over whole runs: unique numbers, and expiry dates only on items that can expire. */
module BatchNumbers {
  import opened Stock
  import opened Packaging
  import opened Intake
  import opened Workflow
  import opened Safety

  lemma SameShapeKeepsLabels(a: map<int, Batch>, b: map<int, Batch>)
    requires Labelled(a) && SameShape(a, b)
    ensures Labelled(b)
  {
    forall x, y | x in b && y in b && x != y ensures !Clash(b[x], b[y]) {
      assert !Clash(a[x], a[y]);
    }
  }

  lemma StepKeepsShape(s: State, a: Action)
    requires Good(s) && !a.ATakeIn?
    ensures SameShape(s.stock.batches, Exec(s, a).stock.batches)
  {
    hide Attempt, Good, DraftSound, Reserving, Dispatching, Discarding;
    if Commits(s, a) {
      var t := Exec(s, a);
      if a.ASaveDraft? || a.ASubmit? || a.ASaveApproval? {
        var d, v, p := ReservingStep(s, a, t);
        ReservingShape(s, a.r, d, v, p, t);
      } else if a.AApprove? || a.ASend? || a.AReview? {
        var d, p := DispatchingStep(s, a, t);
        DispatchingShape(s, a.r, d, p, t);
      } else if a.ACancel? || a.ARelease? {
        DiscardingStep(s, a, t);
        if a.r in s.packages {
          DiscardingShape(s, a.r, if a.ACancel? then map[] else s.packages[a.r].lines, t);
        }
      } else {
        DeskworkShape(s, a, t);
      }
    }
  }

  lemma StepKeepsLabels(s: State, a: Action)
    requires Good(s) && Labelled(s.stock.batches)
    ensures Labelled(Exec(s, a).stock.batches)
  {
    if a.ATakeIn? {
      if Commits(s, a) {
        var items := s.donations[a.d].items;
        SheetGivesSoundArrivals(s.stock.batches, s.catalog, a.today, a.sheet, items);
        ReceiveAllKeepsLabels(Yard(s.stock, s.nextBatch), a.warehouse, Arrivals(s.catalog, a.sheet, items));
      }
    } else {
      StepKeepsShape(s, a);
      SameShapeKeepsLabels(s.stock.batches, Exec(s, a).stock.batches);
    }
  }

  /** On every run, numbered batches of an item keep distinct numbers and no warehouse gets a second
      unnumbered batch of an item. */
  lemma {:induction false} RunKeepsLabels(s: State, actions: seq<Action>)
    requires Good(s) && Labelled(s.stock.batches)
    ensures Labelled(Run(s, actions).stock.batches)
    decreases |actions|
  {
    if actions == [] {
    } else {
      var n := |actions| - 1;
      RunKeepsLabels(s, actions[..n]);
      RunKeepsGood(s, actions[..n]);
      StepKeepsLabels(Run(s, actions[..n]), actions[n]);
    }
  }

  // ---------------------------------------------------------------- expiry dates

  /** Only items that can expire carry expiry dates: what automatic allocation relies on. */
  ghost predicate ExpiryFits(catalog: Catalog, batches: map<int, Batch>) {
    forall id :: id in batches && !CanExpire(catalog, batches[id].item) ==> batches[id].expiry.None?
  }

  lemma {:induction false} ReceiveAllKeepsExpiry(catalog: Catalog, y: Yard, warehouse: int, arrivals: seq<Arrival>)
    requires ExpiryFits(catalog, y.stock.batches)
    requires forall j :: 0 <= j < |arrivals| && !CanExpire(catalog, arrivals[j].item) ==> arrivals[j].expiry.None?
    ensures ExpiryFits(catalog, ReceiveAll(y, warehouse, arrivals).stock.batches)
    decreases |arrivals|
  {
    hide CanExpire;
    if arrivals == [] {
    } else {
      var n := |arrivals| - 1;
      ReceiveAllKeepsExpiry(catalog, y, warehouse, arrivals[..n]);
    }
  }

  /** The step takes the expiry flag from an item that has dated batches. */
  ghost predicate Undates(s: State, a: Action) {
    && a.AEditCatalog? && Commits(s, a) && !a.canExpire
    && exists id :: id in s.stock.batches && s.stock.batches[id].item == a.item && s.stock.batches[id].expiry.Some?
  }

  ghost predicate DatesFit(s: State) {
    ExpiryFits(s.catalog, s.stock.batches)
  }

  lemma StepKeepsCatalog(s: State, a: Action)
    requires !a.AEditCatalog?
    ensures Exec(s, a).catalog == s.catalog
  {
    hide Reserve, Commit, Release, Prepared, Gate, Issued, ReceiveAll, SheetPasses;
  }

  /** Editing the item page breaks the rule exactly when it clears the flag of an item with dated batches. */
  lemma EditingExpiryIff(s: State, a: Action)
    requires DatesFit(s) && a.AEditCatalog?
    ensures DatesFit(Exec(s, a)) <==> !Undates(s, a)
  {
    var t := Exec(s, a);
    if Undates(s, a) {
      var id :| id in s.stock.batches && s.stock.batches[id].item == a.item && s.stock.batches[id].expiry.Some?;
      assert !CanExpire(t.catalog, t.stock.batches[id].item);
    }
  }

  /** One step keeps expiry dates to the items that can expire if and only if it does not undate an item. */
  lemma StepExpiryIff(s: State, a: Action)
    requires Good(s) && DatesFit(s)
    ensures DatesFit(Exec(s, a)) <==> !Undates(s, a)
  {
    if a.AEditCatalog? {
      hide Good, DatesFit, Undates;
      EditingExpiryIff(s, a);
    } else if a.ATakeIn? {
      hide Good;
      if Commits(s, a) {
        var items := s.donations[a.d].items;
        ReceiveAllKeepsExpiry(s.catalog, Yard(s.stock, s.nextBatch), a.warehouse, Arrivals(s.catalog, a.sheet, items));
      }
    } else {
      hide Attempt, Good;
      StepKeepsCatalog(s, a);
      StepKeepsShape(s, a);
    }
  }

  ghost predicate UndatesNowhere(s: State, actions: seq<Action>)
    decreases |actions|
  {
    actions == [] ||
    var n := |actions| - 1;
    UndatesNowhere(s, actions[..n]) && !Undates(Run(s, actions[..n]), actions[n])
  }

  /** Along a run only items that can expire carry expiry dates, if and only if no step undates an item. */
  lemma {:induction false} RunExpiryIff(s: State, actions: seq<Action>)
    requires Good(s) && DatesFit(s)
    ensures UndatesNowhere(s, actions) <==> forall n :: 0 <= n <= |actions| ==> DatesFit(Run(s, actions[..n]))
    decreases |actions|
  {
    hide Exec, Good, DatesFit, Undates;
    if actions == [] {
      assert actions[..0] == [];
    } else {
      var n := |actions| - 1;
      var front := actions[..n];
      RunExpiryIff(s, front);
      assert forall m :: 0 <= m <= n ==> front[..m] == actions[..m];
      assert actions[..n + 1] == actions;
      RunKeepsGood(s, front);
      if forall m :: 0 <= m <= n ==> DatesFit(Run(s, actions[..m])) {
        assert front[..n] == front;
        assert DatesFit(Run(s, actions[..n]));
        StepExpiryIff(Run(s, front), actions[n]);
        assert DatesFit(Run(s, actions[..n + 1])) <==> !Undates(Run(s, front), actions[n]);
      }
    }
  }

  /** The rule at the end of such a run. */
  lemma RunKeepsExpiry(s: State, actions: seq<Action>)
    requires Good(s) && DatesFit(s) && UndatesNowhere(s, actions)
    ensures DatesFit(Run(s, actions))
  {
    RunExpiryIff(s, actions);
    assert actions[..|actions|] == actions;
  }
}
