/** A voting session's rows and the requests in flight on it as mutable state: each method is
    one query, and `Proceed` is the handlers, query by query, as the step system takes them. */
module VotingStore {
  import opened Wrappers
  import opened Voting

  lemma UpsertFinds(p: seq<Participant>, i: nat, user: nat, joined: bool)
    requires i < |p| && p[i].user == user
    ensures p[..i] + Upsert(p[i..], user, joined) == p[i := p[i].(joined := joined)]
  {
    assert p[i..][0] == p[i] && p[i..][1..] == p[i + 1..];
  }

  lemma FinishedNext(p: seq<Participant>, i: nat, user: nat, out: seq<Participant>)
    requires i < |p|
    ensures out + Finished(p[i..], user)
            == (out + [if p[i].user == user then p[i].(finished := true) else p[i]]) + Finished(p[i + 1..], user)
  {
    assert p[i..][0] == p[i] && p[i..][1..] == p[i + 1..];
  }

  lemma UpsertSkips(p: seq<Participant>, i: nat, user: nat, joined: bool)
    requires i < |p| && p[i].user != user
    ensures p[..i] + Upsert(p[i..], user, joined) == p[..i + 1] + Upsert(p[i + 1..], user, joined)
  {
    assert p[i..][1..] == p[i + 1..] && p[..i + 1] == p[..i] + [p[i]];
    var rest := Upsert(p[i + 1..], user, joined);
    assert p[..i] + ([p[i]] + rest) == (p[..i] + [p[i]]) + rest;
  }

  class Session {
    const candidates: set<string>
    const budget: int
    const endsAt: int
    var ended: bool
    var rev: int
    var votes: seq<Vote>
    var participants: seq<Participant>
    var requests: map<nat, Request>
    var frames: seq<Frame>
    var bumped: map<nat, int>
    var clean: bool

    /** The row `create_session` inserts, before the creator's own row. */
    constructor (creator: nat, candidates: set<string>, budget: int, endsAt: int)
      requires 1 <= budget <= 50
      ensures Init(View(), creator)
      ensures this.candidates == candidates && this.budget == budget && this.endsAt == endsAt
    {
      this.candidates, this.budget, this.endsAt := candidates, budget, endsAt;
      ended, rev, votes, participants := false, 1, [], [];
      requests, frames, bumped, clean := map[0 := Starting(creator)], [], map[], true;
    }

    function View(): (s: State)
      reads this
    {
      State(candidates, budget, endsAt, ended, rev, votes, participants, requests, frames, bumped, clean)
    }

    // ---- queries ----

    method IsJoinedRow(user: nat) returns (joined: bool)
      ensures joined == IsJoined(participants, user)
    {
      for i := 0 to |participants|
        invariant forall j | 0 <= j < i :: !(participants[j].user == user && participants[j].joined)
      {
        if participants[i].user == user && participants[i].joined { return true; }
      }
      joined := false;
    }

    method SetParticipation(user: nat, joined: bool)
      modifies this`participants
      ensures participants == Upsert(old(participants), user, joined)
    {
      var i := 0;
      while i < |participants| && participants[i].user != user
        invariant 0 <= i <= |participants| && participants == old(participants)
        invariant Upsert(participants, user, joined) == participants[..i] + Upsert(participants[i..], user, joined)
      {
        UpsertSkips(participants, i, user, joined);
        i := i + 1;
      }
      if i < |participants| {
        UpsertFinds(participants, i, user, joined);
        participants := participants[i := participants[i].(joined := joined)];
      } else {
        assert participants[i..] == [] && participants[..i] == participants;
        participants := participants + [Participant(user, joined, false)];
      }
    }

    method SetFinished(user: nat)
      modifies this`participants
      ensures participants == Finished(old(participants), user)
    {
      var i, out := 0, [];
      while i < |participants|
        invariant 0 <= i <= |participants| && participants == old(participants)
        invariant Finished(participants, user) == out + Finished(participants[i..], user)
      {
        FinishedNext(participants, i, user, out);
        var p := participants[i];
        out := out + [if p.user == user then p.(finished := true) else p];
        i := i + 1;
      }
      assert participants[i..] == [] && out + [] == out;
      participants := out;
    }

    method VoterUsed(user: nat) returns (n: nat)
      ensures n == Used(votes, user)
    {
      n := 0;
      for i := 0 to |votes|
        invariant n == Used(votes[..i], user)
      {
        assert votes[..i + 1][..i] == votes[..i];
        if votes[i].voter == user {
          n := n + 1;
        }
      }
      assert votes[..|votes|] == votes;
    }

    method TallyRows() returns (counts: seq<Count>)
      ensures counts == Tally(votes)
      ensures Total(counts) == |votes|
    {
      counts := [];
      for i := 0 to |votes|
        invariant counts == Tally(votes[..i])
      {
        assert votes[..i + 1][..i] == votes[..i];
        counts := Add(counts, votes[i].candidate);
      }
      assert votes[..|votes|] == votes;
      TallyExact(votes);
    }

    method InsertVote(voter: nat, candidate: string)
      modifies this`votes
      ensures votes == old(votes) + [Vote(voter, candidate)]
    {
      votes := votes + [Vote(voter, candidate)];
    }

    method BumpRev() returns (r: int)
      modifies this`rev
      ensures r == rev == old(rev) + 1
    {
      rev := rev + 1;
      r := rev;
    }

    method EndSession() returns (r: int)
      modifies this`rev, this`ended
      ensures ended && r == rev == old(rev) + 1
    {
      ended := true;
      rev := rev + 1;
      r := rev;
    }

    // ---- handlers ----

    /** A request arrives and loads the session. */
    method ArriveRequest(r: nat, ask: Ask, now: int)
      modifies this`requests
      ensures View() == Do(old(View()), Arrive(r, ask, now))
    {
      if r in requests || ended || (ask.Cast? && endsAt <= now) { return; }
      requests := requests[r := Loaded(View(), ask)];
    }

    /** A handler returns an error. */
    method FailRequest(r: nat)
      modifies this`requests, this`clean
      ensures View() == Do(old(View()), Fail(r))
    {
      if r !in requests { return; }
      clean := clean && !Changed(requests[r]);
      requests := requests - {r};
    }

    /** The next query of a cast before its bump. */
    method ProceedCast(r: nat, fault: bool)
      requires r in requests && (requests[r].CastLoaded? || requests[r].CastJoined? || requests[r].CastChecked?)
      modifies this`requests, this`votes
      ensures View() == Do(old(View()), Proceed(r, fault))
    {
      var q := requests[r];
      if q.CastLoaded? {
        var joined := IsJoinedRow(q.user);
        if joined && q.candidate in candidates {
          requests := requests[r := CastJoined(q.user, q.candidate, q.rev)];
        } else {
          requests := requests - {r};
        }
      } else if q.CastJoined? {
        var used := 0;
        if !fault {
          used := VoterUsed(q.user);
        }
        if used >= budget && !fault {
          requests := requests - {r};
        } else {
          requests := requests[r := CastChecked(q.user, q.candidate, q.rev)];
        }
      } else {
        requests := requests[r := AwaitBump(q.rev, Some(|votes|))];
        InsertVote(q.user, q.candidate);
      }
    }

    /** The next query of a join, a finish or the creator's own row. */
    method ProceedParticipation(r: nat, fault: bool)
      requires r in requests
      requires requests[r].Starting? || requests[r].JoinLoaded? || requests[r].FinishLoaded? || requests[r].FinishJoined?
      modifies this`requests, this`participants
      ensures View() == Do(old(View()), Proceed(r, fault))
    {
      var q := requests[r];
      if q.Starting? {
        SetParticipation(q.user, true);
        requests := requests[r := Building(1, false)];
      } else if q.JoinLoaded? {
        SetParticipation(q.user, q.joins);
        requests := requests[r := AwaitBump(q.rev, None)];
      } else if q.FinishLoaded? {
        var joined := IsJoinedRow(q.user);
        if joined {
          requests := requests[r := FinishJoined(q.user, q.rev)];
        } else {
          requests := requests - {r};
        }
      } else {
        SetFinished(q.user);
        requests := requests[r := AwaitBump(q.rev, None)];
      }
    }

    /** The query that raises the revision. */
    method ProceedBump(r: nat, fault: bool)
      requires r in requests && (requests[r].EndLoaded? || requests[r].AwaitBump?)
      modifies this
      ensures View() == Do(old(View()), Proceed(r, fault))
    {
      var q := requests[r];
      if q.EndLoaded? {
        var raised := EndSession();
        requests := requests[r := Building(raised, true)];
      } else if fault {
        requests, clean := requests[r := Building(q.rev, false)], false;
      } else {
        var raised := BumpRev();
        requests := requests[r := Building(raised, false)];
        if q.vote.Some? {
          bumped := bumped[q.vote.value := raised];
        }
      }
    }

    /** Building and sending the frame. */
    method ProceedBroadcast(r: nat, fault: bool)
      requires r in requests && (requests[r].Building? || requests[r].Tallied? || requests[r].Assembled?)
      modifies this`requests, this`frames
      ensures View() == Do(old(View()), Proceed(r, fault))
    {
      var q := requests[r];
      if q.Building? {
        var counts := TallyRows();
        requests := requests[r := Tallied(q.rev, q.ended, |votes|, counts)];
      } else if q.Tallied? {
        var joined, voted := CompactCompletion(votes, budget, participants);
        requests := requests[r := Assembled(Frame(q.rev, q.ended, q.seen, q.counts, joined, voted))];
      } else {
        requests := requests - {r};
        frames := frames + [q.frame];
      }
    }

    /** The next query of any request in flight: exactly one step of the step system. */
    method ProceedRequest(r: nat, fault: bool)
      modifies this
      ensures View() == Do(old(View()), Proceed(r, fault))
    {
      if r !in requests { return; }
      var q := requests[r];
      if q.CastLoaded? || q.CastJoined? || q.CastChecked? {
        ProceedCast(r, fault);
      } else if q.EndLoaded? || q.AwaitBump? {
        ProceedBump(r, fault);
      } else if q.Building? || q.Tallied? || q.Assembled? {
        ProceedBroadcast(r, fault);
      } else {
        ProceedParticipation(r, fault);
      }
    }
  }
}
