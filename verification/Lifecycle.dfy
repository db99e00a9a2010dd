/** The life of a request over whole runs. */
module Lifecycle {
  import opened Stock
  import opened Packaging
  import opened Intake
  import opened Workflow
  import opened Safety

  /** What a request that has left DRAFT keeps from one state to a later one. */
  ghost predicate Follows(s: State, t: State, r: int)
    requires r in s.requests
  {
    && r in t.requests
    && s.requests[r].status <= t.requests[r].status
    && t.requests[r].items.Keys == s.requests[r].items.Keys
    && (forall i :: i in s.requests[r].items ==> t.requests[r].items[i].request == s.requests[r].items[i].request)
    && t.requests[r].reviewer == (if s.requests[r].reviewer.Some? then s.requests[r].reviewer else t.requests[r].reviewer)
    && (s.requests[r].status == INELIGIBLE ==> t.requests[r] == s.requests[r])
  }

  lemma ReservingFollows(s: State, r: int, d: Draft, v: int, p: Package, t: State, x: int)
    requires Reserving(s, r, d, v, p, t) && DraftSound(s, r, d) && x in s.requests && s.requests[r].status <= PART_FILLED
    ensures Follows(s, t, x)
  {
    hide Reserve, Positive;
  }

  lemma DispatchingFollows(s: State, r: int, d: Draft, p: Package, t: State, x: int)
    requires Dispatching(s, r, d, p, t) && DraftSound(s, r, d) && x in s.requests && s.requests[r].status <= PART_FILLED
    ensures Follows(s, t, x)
  {
    hide Commit;
  }

  /** A request in fulfilment stands at SUBMITTED or PART_FILLED. */
  lemma FulfilmentRange(s: State, r: int)
    requires Good(s) && r in s.requests && s.requests[r].status != INELIGIBLE
    ensures s.requests[r].status <= PART_FILLED
  {
    assert RequestSound(s.requests[r]);
  }

  lemma PackageStepFollows(s: State, a: Action, t: State, r: int)
    requires Good(s) && Attempt(s, a) == Some(t)
    requires IsPackageStep(a)
    requires r in s.requests
    ensures Follows(s, t, r)
  {
    hide Attempt, Good, Follows, DraftSound, Reserve, Commit, Release, Prepared;
    if a.ASaveDraft? || a.ASubmit? || a.ASaveApproval? {
      var d, v, p := ReservingStep(s, a, t);
      FulfilmentRange(s, a.r);
      ReservingFollows(s, a.r, d, v, p, t, r);
    } else if a.AApprove? || a.ASend? || a.AReview? {
      var d, p := DispatchingStep(s, a, t);
      FulfilmentRange(s, a.r);
      DispatchingFollows(s, a.r, d, p, t, r);
    } else {
      DiscardingStep(s, a, t);
      DiscardingFollows(s, a, t, r);
    }
  }

  lemma DiscardingFollows(s: State, a: Action, t: State, r: int)
    requires a.ACancel? || a.ARelease?
    requires r in s.requests
    requires if a.r in s.packages then Discarding(s, a.r, if a.ACancel? then map[] else s.packages[a.r].lines, t) else t == s
    ensures Follows(s, t, r)
  {
    hide Release;
  }

  lemma OtherStepFollows(s: State, a: Action, t: State, r: int)
    requires Attempt(s, a) == Some(t)
    requires IsDeskwork(a) || a.ATakeIn?
    requires r in s.requests && s.requests[r].status != DRAFT
    requires r < s.nextRequest
    requires s.requests[r].status in {AWAITING_APPROVAL, SUBMITTED, PART_FILLED, INELIGIBLE}
    ensures Follows(s, t, r)
  {
  }

  lemma StepFollows(s: State, a: Action, r: int)
    requires Good(s) && r in s.requests && s.requests[r].status != DRAFT
    ensures Follows(s, Exec(s, a), r)
  {
    assert RequestSound(s.requests[r]) && r < s.nextRequest;
    hide Attempt, Good, Follows, RequestSound;
    if Commits(s, a) {
      var t := Exec(s, a);
      if IsPackageStep(a) {
        PackageStepFollows(s, a, t, r);
      } else {
        assert s.requests[r].status in {AWAITING_APPROVAL, SUBMITTED, PART_FILLED, INELIGIBLE} by {
          StatusRange(s, r);
        }
        OtherStepFollows(s, a, t, r);
      }
    } else {
      FollowsSelf(s, r);
    }
  }

  lemma StatusRange(s: State, r: int)
    requires Good(s) && r in s.requests && s.requests[r].status != DRAFT
    ensures s.requests[r].status in {AWAITING_APPROVAL, SUBMITTED, PART_FILLED, INELIGIBLE}
  {
    assert RequestSound(s.requests[r]);
  }

  lemma FollowsSelf(s: State, r: int)
    requires r in s.requests
    ensures Follows(s, s, r)
  {
  }

  lemma FollowsCompose(s: State, m: State, t: State, r: int)
    requires r in s.requests && Follows(s, m, r) && Follows(m, t, r)
    ensures Follows(s, t, r)
  {
  }

  /** Once submitted, a request is never removed, its status code never falls, its requested quantities are
      frozen, its recorded reviewer stays, and INELIGIBLE is final. */
  lemma {:induction false} RunFollows(s: State, actions: seq<Action>, r: int)
    requires Good(s) && r in s.requests && s.requests[r].status != DRAFT
    ensures Follows(s, Run(s, actions), r)
    decreases |actions|
  {
    hide Exec, Good, Follows;
    if actions == [] {
      FollowsSelf(s, r);
    } else {
      var n := |actions| - 1;
      var m := Run(s, actions[..n]);
      RunFollows(s, actions[..n], r);
      RunKeepsGood(s, actions[..n]);
      assert r in m.requests && m.requests[r].status != DRAFT by {
        NotDraftAgain(s, m, r);
      }
      StepFollows(m, actions[n], r);
      FollowsCompose(s, m, Run(s, actions), r);
    }
  }

  lemma NotDraftAgain(s: State, m: State, r: int)
    requires Good(s) && r in s.requests && s.requests[r].status != DRAFT && Follows(s, m, r)
    ensures r in m.requests && m.requests[r].status != DRAFT
  {
    assert RequestSound(s.requests[r]);
  }

  // ---------------------------------------------------------------- no package without an approval

  ghost predicate InFulfilmentNow(s: State, r: int) {
    r in s.requests && (s.requests[r].status == SUBMITTED || s.requests[r].status == PART_FILLED)
  }

  /** The eligibility decision in favour of request `r`. */
  predicate Favours(a: Action, r: int) {
    a.ADecide? && a.r == r && a.decision == 'Y'
  }

  /** Only a committed decision 'Y' on a request awaiting approval brings it into fulfilment. */
  lemma OnlyApprovalAdmits(s: State, a: Action, r: int)
    requires Good(s) && !InFulfilmentNow(s, r) && InFulfilmentNow(Exec(s, a), r)
    ensures Favours(a, r) && Commits(s, a) && r in s.requests && s.requests[r].status == AWAITING_APPROVAL
  {
    if IsPackageStep(a) {
      PackageStepAdmitsNobody(s, a, r);
      assert false;
    } else {
      hide Good, SheetPasses, ReceiveAll;
    }
  }

  lemma PackageStepAdmitsNobody(s: State, a: Action, r: int)
    requires Good(s)
    requires IsPackageStep(a)
    ensures InFulfilmentNow(Exec(s, a), r) ==> InFulfilmentNow(s, r)
  {
    if Commits(s, a) && r in s.requests {
      assert RequestSound(s.requests[r]);
    }
    hide Attempt, Good;
    if Commits(s, a) {
      var t := Exec(s, a);
      if a.ASaveDraft? || a.ASubmit? || a.ASaveApproval? {
        var d, v, p := ReservingStep(s, a, t);
      } else if a.AApprove? || a.ASend? || a.AReview? {
        var d, p := DispatchingStep(s, a, t);
      } else {
        DiscardingStep(s, a, t);
      }
    }
  }

  /** Some step of the run was a committed approval of `r`, taken while it awaited approval. */
  ghost predicate WasApproved(s: State, actions: seq<Action>, r: int) {
    exists n :: 0 <= n < |actions| && ApprovedAt(s, actions, r, n)
  }

  ghost predicate ApprovedAt(s: State, actions: seq<Action>, r: int, n: int)
    requires 0 <= n < |actions|
  {
    && Favours(actions[n], r) && Commits(Run(s, actions[..n]), actions[n])
    && r in Run(s, actions[..n]).requests && Run(s, actions[..n]).requests[r].status == AWAITING_APPROVAL
  }

  lemma {:induction false} FulfilmentWasApproved(s: State, actions: seq<Action>, r: int)
    requires Good(s) && !InFulfilmentNow(s, r)
    requires InFulfilmentNow(Run(s, actions), r)
    ensures WasApproved(s, actions, r)
    decreases |actions|
  {
    hide Exec, Good, InFulfilmentNow, Commits;
    assert actions != [];
    var n := |actions| - 1;
    var front := actions[..n];
    RunKeepsGood(s, front);
    if InFulfilmentNow(Run(s, front), r) {
      FulfilmentWasApproved(s, front, r);
      var m :| 0 <= m < n && ApprovedAt(s, front, r, m);
      assert front[..m] == actions[..m];
      assert ApprovedAt(s, actions, r, m);
    } else {
      OnlyApprovalAdmits(Run(s, front), actions[n], r);
      assert ApprovedAt(s, actions, r, n);
    }
  }

  /** On every run from a state without the request: a request that has a package was moved out of
      AWAITING_APPROVAL by a decision 'Y' and has its reviewer recorded. */
  lemma PackagesWereApproved(s: State, actions: seq<Action>, r: int)
    requires Good(s) && r !in s.requests
    requires r in Run(s, actions).packages
    ensures WasApproved(s, actions, r)
    ensures r in Run(s, actions).requests && Run(s, actions).requests[r].reviewer.Some?
  {
    RunKeepsGood(s, actions);
    var t := Run(s, actions);
    assert PackageSound(t, r) && RequestSound(t.requests[r]);
    hide Exec, Good;
    FulfilmentWasApproved(s, actions, r);
  }
}
