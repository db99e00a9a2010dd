/** Optimistic locking: of two version-checked handlers started from the same snapshot, at most one commits. */
module Versions {
  import opened Stock
  import opened Packaging
  import opened Intake
  import opened Workflow

  /** The versions a page shows for request `r`, and its form posts back. */
  function Snapshot(s: State, r: int): Posted
    requires r in s.requests
  {
    Posted(Some(s.requests[r].version), if r in s.packages then Some(s.packages[r].version) else None)
  }

  /** The handlers that check versions. */
  predicate Checked(a: Action) {
    a.ASaveDraft? || a.ASubmit? || a.ASaveApproval? || a.AApprove? || a.ASend?
  }

  /** `t` is a state at or after `s`, as far as the versions of `r` show. */
  predicate AtOrAfter(s: State, t: State, r: int) {
    r in t.requests ==>
      && r in s.requests
      && s.requests[r].version <= t.requests[r].version
      && (r in s.packages ==> r in t.packages && s.packages[r].version <= t.packages[r].version)
      && (r !in s.packages && r in t.packages ==> s.requests[r].version < t.requests[r].version)
  }

  /** `t` is strictly after `s`: one of the two versions has gone up. */
  predicate After(s: State, t: State, r: int) {
    && AtOrAfter(s, t, r)
    && (r in t.requests && r in s.requests ==>
          || s.requests[r].version < t.requests[r].version
          || (r in s.packages && r in t.packages && s.packages[r].version < t.packages[r].version))
  }

  lemma CheckedStepRaises(s: State, a: Action)
    requires Checked(a) && Commits(s, a)
    ensures a.r in s.requests && After(s, Exec(s, a), a.r)
  {
    hide Reserve, Commit, Prepared, Gate, Issued;
  }

  /** No step lowers a version, and no step creates a package without raising the request's version. */
  lemma StepNeverLowers(s: State, a: Action, r: int)
    requires r < s.nextRequest
    ensures AtOrAfter(s, Exec(s, a), r)
    ensures r < Exec(s, a).nextRequest
  {
    hide Reserve, Commit, Release, Prepared, Gate, Issued, ReceiveAll, SheetPasses;
  }

  lemma {:induction false} RunNeverLowers(s: State, actions: seq<Action>, r: int)
    requires r < s.nextRequest
    ensures AtOrAfter(s, Run(s, actions), r)
    ensures r < Run(s, actions).nextRequest
    decreases |actions|
  {
    hide Exec;
    if actions == [] {
    } else {
      var n := |actions| - 1;
      RunNeverLowers(s, actions[..n], r);
      StepNeverLowers(Run(s, actions[..n]), actions[n], r);
    }
  }

  /** Submitting, saving an approval and approving raise the version of their package by one; every other step,
      saving a draft and sending among them, leaves the version of every package as it was. */
  lemma PackageVersionStep(s: State, a: Action, r: int)
    requires r in s.packages
    ensures r in Exec(s, a).packages
    ensures Exec(s, a).packages[r].version
            == s.packages[r].version
               + if (a.ASubmit? || a.ASaveApproval? || a.AApprove?) && a.r == r && Commits(s, a) then 1 else 0
  {
    hide Reserve, Commit, Release, Prepared, Gate, Issued, ReceiveAll, SheetPasses, Strip;
  }

  /** A handler whose posted versions are older than the state refuses. */
  lemma StaleIsRefused(s: State, t: State, a: Action)
    requires Checked(a) && a.r in s.requests && a.posted == Snapshot(s, a.r)
    requires After(s, t, a.r)
    ensures !Commits(t, a)
  {
    hide Reserve, Commit, Prepared, Gate, Issued;
  }

  lemma FreshMatches(s: State, m: State, a: Action)
    requires Checked(a) && a.r in s.requests && a.posted == Snapshot(s, a.r)
    requires AtOrAfter(s, m, a.r) && Commits(m, a)
    ensures a.r in m.requests && Snapshot(m, a.r) == Snapshot(s, a.r)
  {
    hide Reserve, Commit, Prepared, Gate, Issued;
  }

  /** No lost update: if two checked handlers post the versions of the same snapshot and the first commits, then
      however other steps are interleaved, the second is refused. */
  lemma NoLostUpdate(s: State, before: seq<Action>, a: Action, between: seq<Action>, b: Action)
    requires Checked(a) && Checked(b) && a.r == b.r
    requires a.r in s.requests && a.r < s.nextRequest
    requires a.posted == b.posted == Snapshot(s, a.r)
    requires Commits(Run(s, before), a)
    ensures !Commits(Run(Exec(Run(s, before), a), between), b)
  {
    hide Exec, Commits, AtOrAfter, After, Snapshot;
    var m := Run(s, before);
    RunNeverLowers(s, before, a.r);
    FreshMatches(s, m, a);
    CheckedStepRaises(m, a);
    StepNeverLowers(m, a, a.r);
    var n := Exec(m, a);
    RunNeverLowers(n, between, a.r);
    AfterCompose(m, n, Run(n, between), a.r);
    StaleIsRefused(m, Run(n, between), b);
  }

  lemma AfterCompose(s: State, m: State, t: State, r: int)
    requires After(s, m, r) && AtOrAfter(m, t, r)
    ensures After(s, t, r)
  {
  }
}
