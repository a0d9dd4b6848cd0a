/** Exactly when one voter exceeds the vote budget: the check and the insertion are two queries,
    so what counts is how many checks passed while the budget was already spoken for. */
module VotingBudget {
  import opened Wrappers
  import opened Voting

  /** The user's requests that have passed the budget check and not inserted their vote. */
  function Checked(requests: map<nat, Request>, user: nat): set<nat> {
    set r | r in requests && requests[r].CastChecked? && requests[r].user == user
  }

  /** Votes cast and votes that have passed their check. */
  function Claimed(s: State, user: nat): nat {
    Used(s.votes, user) + |Checked(s.requests, user)|
  }

  /** The step is a budget check of the user that passes. */
  predicate Passes(s: State, step: Step, user: nat) {
    && step.Proceed? && step.r in s.requests && s.requests[step.r].CastJoined? && s.requests[step.r].user == user
    && (step.fault || Used(s.votes, user) < s.budget)
  }

  /** It passes although the budget is already claimed. */
  predicate Overspends(s: State, step: Step, user: nat) {
    Passes(s, step, user) && Claimed(s, user) >= s.budget
  }

  /** The step drops a request of the user between check and insertion. */
  predicate Abandons(s: State, step: Step, user: nat) {
    step.Fail? && step.r in Checked(s.requests, user)
  }

  predicate SomeOverspends(s: State, steps: seq<Step>, user: nat) {
    steps != [] && (SomeOverspends(s, steps[..|steps| - 1], user)
                    || Overspends(Run(s, steps[..|steps| - 1]), steps[|steps| - 1], user))
  }

  predicate SomeAbandons(s: State, steps: seq<Step>, user: nat) {
    steps != [] && (SomeAbandons(s, steps[..|steps| - 1], user)
                    || Abandons(Run(s, steps[..|steps| - 1]), steps[|steps| - 1], user))
  }

  lemma SameChecked(a: map<nat, Request>, b: map<nat, Request>, user: nat)
    requires forall r :: (r in a && a[r].CastChecked? && a[r].user == user) <==> (r in b && b[r].CastChecked? && b[r].user == user)
    ensures Checked(a, user) == Checked(b, user)
  {
  }

  /** A request that is not at its check or its insertion claims nothing. */
  lemma NextVotesNothing(s: State, r: nat, q: Request, fault: bool)
    requires r in s.requests && s.requests[r] == q && !q.CastJoined? && !q.CastChecked?
    ensures var s' := Next(s, r, q, fault);
            && s'.votes == s.votes
            && (forall k | k in s'.requests && s'.requests[k].CastChecked? :: k in s.requests && s.requests[k] == s'.requests[k])
            && (forall k | k in s.requests && s.requests[k].CastChecked? :: k in s'.requests && s.requests[k] == s'.requests[k])
  {
  }

  lemma CheckClaims(s: State, r: nat, q: Request, fault: bool, user: nat)
    requires r in s.requests && s.requests[r] == q && q.CastJoined?
    ensures Claimed(Next(s, r, q, fault), user) == Claimed(s, user) + if Passes(s, Proceed(r, fault), user) then 1 else 0
  {
    var s' := Next(s, r, q, fault);
    if Passes(s, Proceed(r, fault), user) {
      assert r !in Checked(s.requests, user);
      assert Checked(s'.requests, user) == Checked(s.requests, user) + {r};
    } else {
      SameChecked(s.requests, s'.requests, user);
    }
  }

  lemma InsertClaims(s: State, r: nat, q: Request, user: nat)
    requires r in s.requests && s.requests[r] == q && q.CastChecked?
    ensures Claimed(Next(s, r, q, false), user) == Claimed(s, user)
  {
    var s' := Next(s, r, q, false);
    assert s'.votes[..|s.votes|] == s.votes;
    if q.user == user {
      assert r in Checked(s.requests, user);
      assert Checked(s'.requests, user) == Checked(s.requests, user) - {r};
    } else {
      SameChecked(s.requests, s'.requests, user);
    }
  }

  /** Claims grow by one exactly at a passing check, and shrink only where one is abandoned. */
  lemma StepClaims(s: State, step: Step, user: nat)
    ensures Claimed(Do(s, step), user)
            == Claimed(s, user) + (if Passes(s, step, user) then 1 else 0) - (if Abandons(s, step, user) then 1 else 0)
  {
    match step
    case Arrive(r, ask, now) => SameChecked(s.requests, Do(s, step).requests, user);
    case Proceed(r, fault) =>
      if r in s.requests {
        var q := s.requests[r];
        if q.CastJoined? {
          CheckClaims(s, r, q, fault, user);
        } else if q.CastChecked? {
          InsertClaims(s, r, q, user);
        } else {
          NextVotesNothing(s, r, q, fault);
          SameChecked(s.requests, Next(s, r, q, fault).requests, user);
        }
      }
    case Fail(r) =>
      if r in s.requests {
        assert Checked(Do(s, step).requests, user) == Checked(s.requests, user) - {r};
      }
  }

  lemma StepBudgetFixed(s: State, step: Step)
    ensures Do(s, step).budget == s.budget
  {
  }

  lemma {:induction false} BudgetFixed(s: State, steps: seq<Step>)
    ensures Run(s, steps).budget == s.budget
  {
    if steps != [] {
      BudgetFixed(s, steps[..|steps| - 1]);
      StepBudgetFixed(Run(s, steps[..|steps| - 1]), steps[|steps| - 1]);
    }
  }

  /** Claims exceed the budget only after an overspending check, and once one has passed they
      exceed it as long as nothing is abandoned. */
  lemma {:induction false} RunClaims(s: State, creator: nat, steps: seq<Step>, user: nat)
    requires Init(s, creator)
    ensures Claimed(Run(s, steps), user) > s.budget ==> SomeOverspends(s, steps, user)
    ensures SomeOverspends(s, steps, user) && !SomeAbandons(s, steps, user) ==> Claimed(Run(s, steps), user) > s.budget
  {
    if steps == [] {
      assert Checked(s.requests, user) == {};
    } else {
      var front := steps[..|steps| - 1];
      RunClaims(s, creator, front, user);
      BudgetFixed(s, front);
      StepClaims(Run(s, front), steps[|steps| - 1], user);
    }
  }

  /** The budget, exactly: once all of a voter's checked casts were inserted, the voter holds
      more votes than the budget if and only if one of its checks passed while votes cast and
      checks passed already filled the budget. */
  lemma {:induction false} BudgetExceededExactly(s: State, creator: nat, steps: seq<Step>, user: nat)
    requires Init(s, creator)
    requires !SomeAbandons(s, steps, user) && Checked(Run(s, steps).requests, user) == {}
    ensures Used(Run(s, steps).votes, user) > s.budget <==> SomeOverspends(s, steps, user)
  {
    RunClaims(s, creator, steps, user);
  }

  /** Without either condition, an exceeded budget still has an overspending check behind it. */
  lemma {:induction false} ExceededBudgetWasOverspent(s: State, creator: nat, steps: seq<Step>, user: nat)
    requires Init(s, creator) && Used(Run(s, steps).votes, user) > s.budget
    ensures SomeOverspends(s, steps, user)
  {
    RunClaims(s, creator, steps, user);
  }

  /** The check could not be read, or another request of the voter was past its own check. */
  predicate Overlaps(s: State, step: Step, user: nat) {
    Passes(s, step, user) && (step.fault || Checked(s.requests, user) != {})
  }

  predicate SomeOverlaps(s: State, steps: seq<Step>, user: nat) {
    steps != [] && (SomeOverlaps(s, steps[..|steps| - 1], user)
                    || Overlaps(Run(s, steps[..|steps| - 1]), steps[|steps| - 1], user))
  }

  lemma {:induction false} OverspendingOverlaps(s: State, steps: seq<Step>, user: nat)
    requires SomeOverspends(s, steps, user)
    ensures SomeOverlaps(s, steps, user)
  {
    var front := steps[..|steps| - 1];
    if SomeOverspends(s, front, user) {
      OverspendingOverlaps(s, front, user);
    }
  }

  /** So a voter whose checks are readable and never overlap stays within the budget. */
  lemma {:induction false} BudgetHoldsUnlessChecksOverlap(s: State, creator: nat, steps: seq<Step>, user: nat)
    requires Init(s, creator) && !SomeOverlaps(s, steps, user)
    ensures Used(Run(s, steps).votes, user) <= s.budget
  {
    if Used(Run(s, steps).votes, user) > s.budget {
      ExceededBudgetWasOverspent(s, creator, steps, user);
      OverspendingOverlaps(s, steps, user);
    }
  }
}
