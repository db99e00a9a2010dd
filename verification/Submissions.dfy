/** Who may submit a package, and when it counts as submitted, over whole runs. */
module Submissions {
  import opened Stock
  import opened Packaging
  import opened Intake
  import opened Workflow

  /** No step removes a package or hands it to another officer; a new one belongs to the officer who posted it. */
  lemma StepKeepsCreator(s: State, a: Action, r: int)
    requires r in s.packages
    ensures r in Exec(s, a).packages && Exec(s, a).packages[r].creator == s.packages[r].creator
  {
    hide Reserve, Commit, Release, Prepared, Gate, Issued, ReceiveAll, SheetPasses, Strip;
  }

  lemma {:induction false} RunKeepsCreator(s: State, actions: seq<Action>, r: int)
    requires r in s.packages
    ensures r in Run(s, actions).packages && Run(s, actions).packages[r].creator == s.packages[r].creator
    decreases |actions|
  {
    hide Exec;
    if actions == [] {
    } else {
      var n := |actions| - 1;
      RunKeepsCreator(s, actions[..n], r);
      StepKeepsCreator(Run(s, actions[..n]), actions[n], r);
    }
  }

  /** A new package belongs to the officer whose form created it. */
  lemma CreatorIsPoster(s: State, a: Action, r: int)
    requires r !in s.packages && r in Exec(s, a).packages
    ensures (a.ASaveDraft? || a.ASubmit? || a.ASend?) && a.r == r && Commits(s, a)
    ensures Exec(s, a).packages[r].creator == a.user
  {
    hide Reserve, Commit, Release, Prepared, Gate, Issued, ReceiveAll, SheetPasses, Strip;
  }

  /** Once a package exists, nobody but its creator ever submits it, whatever happens in between. */
  lemma OnlyCreatorSubmits(s: State, actions: seq<Action>, a: Action)
    requires a.ASubmit? && a.r in s.packages && Commits(Run(s, actions), a)
    ensures a.user == s.packages[a.r].creator
  {
    RunKeepsCreator(s, actions, a.r);
    OwnSubmission(Run(s, actions), a);
  }

  lemma OwnSubmission(s: State, a: Action)
    requires a.ASubmit? && a.r in s.packages && Commits(s, a)
    ensures a.user == s.packages[a.r].creator && !s.packages[a.r].dispatched
  {
    hide Reserve, Prepared;
  }

  /** A package is submitted by a submission, taken back by a draft save, and left as it was by every other step. */
  lemma SubmittedStep(s: State, a: Action, r: int)
    requires r in Exec(s, a).packages
    ensures Exec(s, a).packages[r].submitted
            == if a.ASubmit? && a.r == r && Commits(s, a) then true
               else if a.ASaveDraft? && a.r == r && Commits(s, a) then false
               else r in s.packages && s.packages[r].submitted
  {
    hide Reserve, Commit, Release, Prepared, Gate, Issued, ReceiveAll, SheetPasses, Strip;
  }

  /** A package is dispatched by exactly three steps, and stays dispatched. */
  lemma DispatchedStep(s: State, a: Action, r: int)
    requires r in Exec(s, a).packages
    ensures Exec(s, a).packages[r].dispatched
            <==> || (r in s.packages && s.packages[r].dispatched)
                 || ((a.AApprove? || a.ASend? || a.AReview?) && a.r == r && Commits(s, a))
  {
    hide Reserve, Commit, Release, Prepared, Gate, Issued, ReceiveAll, SheetPasses, Strip;
  }
}
