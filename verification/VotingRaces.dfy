/** Two things interleaved voting requests do not guarantee, each by a concrete run. */
module VotingRaces {
  import opened Wrappers
  import opened Voting

  ghost predicate Reaches(s: State, t: State) {
    exists steps :: Run(s, steps) == t
  }

  lemma Here(s: State)
    ensures Reaches(s, s)
  {
    assert Run(s, []) == s;
  }

  lemma Then(s: State, t: State, step: Step)
    requires Reaches(s, t)
    ensures Reaches(s, Do(t, step))
  {
    var steps :| Run(s, steps) == t;
    assert (steps + [step])[..|steps|] == steps;
    assert Run(s, steps + [step]) == Do(t, step);
  }

  /** One more query of request r. */
  lemma Query(s: State, t: State, r: nat) returns (t': State)
    requires Reaches(s, t) && r in t.requests
    ensures Reaches(s, t') && t' == Next(t, r, t.requests[r], false)
  {
    Then(s, t, Proceed(r, false));
    t' := Do(t, Proceed(r, false));
  }

  /** The creator has joined and broadcast the new session. */
  lemma Opened(s: State) returns (t: State)
    requires Init(s, 0)
    ensures Reaches(s, t) && t.requests == map[] && t.votes == [] && t.rev == 1 && !t.ended
    ensures t.participants == [Participant(0, true, false)]
    ensures t.budget == s.budget && t.candidates == s.candidates && t.endsAt == s.endsAt
  {
    Here(s);
    var a := Query(s, s, 0);
    var b := Query(s, a, 0);
    var c := Query(s, b, 0);
    t := Query(s, c, 0);
    assert t.requests == map[];
  }

  lemma Asked(s: State, t: State, r: nat, ask: Ask) returns (t': State)
    requires Reaches(s, t) && r !in t.requests && !t.ended && (ask.Cast? ==> 0 < t.endsAt)
    ensures Reaches(s, t') && t' == Put(t, r, Loaded(t, ask))
  {
    Then(s, t, Arrive(r, ask, 0));
    t' := Do(t, Arrive(r, ask, 0));
  }

  /** Past the joined and budget checks. */
  lemma Checks(s: State, t: State, r: nat, c: string) returns (t': State)
    requires Reaches(s, t) && r in t.requests && t.requests[r] == CastLoaded(0, c, 1) && c in t.candidates
    requires t.participants == [Participant(0, true, false)] && t.votes == [] && 1 <= t.budget
    ensures Reaches(s, t') && t' == Put(t, r, CastChecked(0, c, 1))
  {
    assert t.participants[0].user == 0;
    var a := Query(s, t, r);
    assert a == Put(t, r, CastJoined(0, c, 1));
    t' := Query(s, a, r);
    assert a.requests[r := CastChecked(0, c, 1)] == t.requests[r := CastChecked(0, c, 1)];
  }

  /** A session with a budget of one vote can hold two votes of one voter, cast by two requests
      that were both checked before either was inserted. */
  lemma OverlappingCastsOverspend(s: State, c: string) returns (t: State)
    requires Init(s, 0) && s.budget == 1 && c in s.candidates && 0 < s.endsAt
    ensures Reaches(s, t) && t.budget == 1 && Used(t.votes, 0) == 2
  {
    var f := BothChecked(s, c);
    var g := Query(s, f, 1);
    t := Query(s, g, 2);
    assert t.votes == [Vote(0, c), Vote(0, c)];
    TwoUsed(c);
  }

  lemma BothChecked(s: State, c: string) returns (t: State)
    requires Init(s, 0) && s.budget == 1 && c in s.candidates && 0 < s.endsAt
    ensures Reaches(s, t) && t.budget == 1 && t.votes == []
    ensures 1 in t.requests && 2 in t.requests && t.requests[1] == t.requests[2] == CastChecked(0, c, 1)
  {
    var a := Opened(s);
    var b := Asked(s, a, 1, Cast(0, c));
    var d := Asked(s, b, 2, Cast(0, c));
    var e := Checks(s, d, 1, c);
    t := Checks(s, e, 2, c);
  }

  lemma TwoUsed(c: string)
    ensures Used([Vote(0, c), Vote(0, c)], 0) == 2
  {
    var two := [Vote(0, c), Vote(0, c)];
    assert two[..1] == [Vote(0, c)] && [Vote(0, c)][..0] == [];
    assert Used([], 0) == 0 && Used([Vote(0, c)], 0) == 1;
  }

  /** From a bumped request to its frame. */
  lemma Sends(s: State, t: State, r: nat, rev: int, ended: bool) returns (t': State)
    requires Reaches(s, t) && r in t.requests && t.requests[r] == Building(rev, ended)
    ensures Reaches(s, t') && t'.requests == t.requests - {r} && |t'.frames| == |t.frames| + 1
    ensures t'.frames[|t.frames|].rev == rev && t'.frames[|t.frames|].ended == ended
    ensures t'.rev == t.rev && t'.ended == t.ended && t'.votes == t.votes && t'.participants == t.participants
    ensures t'.candidates == t.candidates && t'.budget == t.budget
  {
    var a := Query(s, t, r);
    var b := Query(s, a, r);
    t' := Query(s, b, r);
    assert t'.requests == t.requests - {r};
  }

  /** A cast has loaded the session; then the session is ended and that is broadcast. */
  lemma EndedMeanwhile(s: State, c: string) returns (t: State)
    requires Init(s, 0) && c in s.candidates && 0 < s.endsAt
    ensures Reaches(s, t) && t.requests == map[1 := CastLoaded(0, c, 1)] && t.ended && t.rev == 2
    ensures t.participants == [Participant(0, true, false)] && t.votes == []
    ensures t.candidates == s.candidates && t.budget == s.budget
  {
    var a := Opened(s);
    var b := Asked(s, a, 1, Cast(0, c));
    var d := Asked(s, b, 2, End);
    var e := Query(s, d, 2);
    t := Sends(s, e, 2, 2, true);
    assert t.requests == map[1 := CastLoaded(0, c, 1)];
  }

  /** The frame with the highest revision can say that voting is open after it was ended: a
      vote that loaded the session before the end is bumped and broadcast after it. Its counts
      are right, its status is not. */
  lemma LateVoteShowsOpenSession(s: State, c: string) returns (t: State, i: nat)
    requires Init(s, 0) && c in s.candidates && 0 < s.endsAt
    ensures Reaches(s, t) && t.requests == map[] && t.ended
    ensures i < |t.frames| && t.frames[i].rev == t.rev && !t.frames[i].ended
  {
    var f := EndedMeanwhile(s, c);
    var g := Checks(s, f, 1, c);
    var h := Query(s, g, 1);
    var j := Query(s, h, 1);
    t := Sends(s, j, 1, 3, false);
    i := |j.frames|;
    assert t.requests == map[];
  }
}
