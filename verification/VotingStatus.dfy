/** Exactly when the status shown with the highest revision is the session's. */
module VotingStatus {
  import opened Wrappers
  import opened Voting

  /** A cast, join or finish raises the revision of a session that has been ended. It loaded the
      session before the end: an ended session admits no request. */
  predicate LateBump(s: State, step: Step) {
    step.Proceed? && !step.fault && step.r in s.requests && s.requests[step.r].AwaitBump? && s.ended
  }

  predicate Ends(s: State, step: Step) {
    step.Proceed? && step.r in s.requests && s.requests[step.r].EndLoaded?
  }

  /** Such a request bumped the revision after the session was last ended. */
  predicate BumpedSinceEnd(s: State, steps: seq<Step>) {
    steps != [] &&
    var front, last := steps[..|steps| - 1], steps[|steps| - 1];
    LateBump(Run(s, front), last) || (!Ends(Run(s, front), last) && BumpedSinceEnd(s, front))
  }

  /** The status a request will broadcast, if it is past its bump. */
  predicate ShowsEnded(q: Request) {
    match q
    case Building(_, ended) => ended
    case Tallied(_, ended, _, _) => ended
    case Assembled(frame) => frame.ended
    case _ => false
  }

  /** Everything at the current revision carries the status `top`. */
  predicate Agreed(s: State, top: bool) {
    && (top ==> s.ended)
    && (forall r | r in s.requests && RevOf(s.requests[r]) == s.rev :: ShowsEnded(s.requests[r]) == top)
    && (forall i | 0 <= i < |s.frames| && s.frames[i].rev == s.rev :: s.frames[i].ended == top)
  }

  /** A step that leaves the revision alone leaves the status at it alone. */
  lemma SameRevAgrees(s: State, r: nat, q: Request, fault: bool, top: bool)
    requires Revs(s) && Agreed(s, top) && r in s.requests && s.requests[r] == q
    requires !q.EndLoaded? && (q.AwaitBump? ==> fault)
    ensures Agreed(Next(s, r, q, fault), top) && Next(s, r, q, fault).ended == s.ended
  {
  }

  lemma RaisedRevAgrees(s: State, r: nat, q: Request, fault: bool)
    requires Revs(s) && r in s.requests && s.requests[r] == q && (q.EndLoaded? || (q.AwaitBump? && !fault))
    ensures Agreed(Next(s, r, q, fault), q.EndLoaded?)
    ensures Next(s, r, q, fault).ended == (q.EndLoaded? || s.ended)
  {
    assert RevOf(q) <= s.rev;
  }

  /** The status of the current revision after a step. */
  lemma StepAgrees(s: State, step: Step, top: bool)
    requires Revs(s) && Agreed(s, top)
    ensures Agreed(Do(s, step), if Ends(s, step) then true else if Raises(s, step) then false else top)
    ensures Do(s, step).ended == (Ends(s, step) || s.ended)
  {
    match step
    case Arrive(r, ask, now) =>
    case Proceed(r, fault) =>
      if r in s.requests {
        var q := s.requests[r];
        if q.EndLoaded? || (q.AwaitBump? && !fault) {
          RaisedRevAgrees(s, r, q, fault);
        } else {
          SameRevAgrees(s, r, q, fault, top);
        }
      }
    case Fail(r) =>
  }

  predicate Raises(s: State, step: Step) {
    step.Proceed? && !step.fault && step.r in s.requests && s.requests[step.r].AwaitBump?
  }

  lemma {:induction false} RunAgrees(s: State, creator: nat, steps: seq<Step>)
    requires Init(s, creator)
    ensures Agreed(Run(s, steps), Run(s, steps).ended && !BumpedSinceEnd(s, steps))
    ensures BumpedSinceEnd(s, steps) ==> Run(s, steps).ended
  {
    if steps != [] {
      var front, last := steps[..|steps| - 1], steps[|steps| - 1];
      RunAgrees(s, creator, front);
      RunCovers(s, creator, front);
      StepAgrees(Run(s, front), last, Run(s, front).ended && !BumpedSinceEnd(s, front));
    }
  }

  /** The status, exactly: in every run a frame with the current revision, the one clients keep,
      shows whether the session is ended if and only if no request that had loaded the session
      before it was last ended has bumped since. */
  lemma {:induction false} TopStatusExact(s: State, creator: nat, steps: seq<Step>, i: nat)
    requires Init(s, creator)
    requires var t := Run(s, steps); i < |t.frames| && t.frames[i].rev == t.rev
    ensures var t := Run(s, steps); t.frames[i].ended == t.ended <==> !BumpedSinceEnd(s, steps)
  {
    RunAgrees(s, creator, steps);
  }
}
