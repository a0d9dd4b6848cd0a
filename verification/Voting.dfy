/** A board voting session under concurrent requests.

    Every query of a handler is its own step, so the requests of any number of users
    interleave between any two queries. A request is dropped by `Fail` wherever the handler
    can return an error. */
module Voting {
  import opened Wrappers

  datatype Vote = Vote(voter: nat, candidate: string)
  datatype Participant = Participant(user: nat, joined: bool, finished: bool)

  /** One row of the tally query. */
  datatype Count = Count(candidate: string, n: nat)

  /** What the clients receive. `seen` is how many votes had been inserted when the tally was
      read. */
  datatype Frame = Frame(rev: int, ended: bool, seen: nat, counts: seq<Count>, joined: nat, voted: nat)

  datatype Request =
    | Starting(user: nat)
    | CastLoaded(user: nat, candidate: string, rev: int)
    | CastJoined(user: nat, candidate: string, rev: int)
    | CastChecked(user: nat, candidate: string, rev: int)
    | JoinLoaded(user: nat, joins: bool, rev: int)
    | FinishLoaded(user: nat, rev: int)
    | FinishJoined(user: nat, rev: int)
    | EndLoaded(rev: int)
    | AwaitBump(rev: int, vote: Option<nat>)
    | Building(rev: int, ended: bool)
    | Tallied(rev: int, ended: bool, seen: nat, counts: seq<Count>)
    | Assembled(frame: Frame)

  /** `bumped` maps a vote to the revision its own bump returned. `clean` says that no request
      failed after it had changed the session. */
  datatype State = State(
    candidates: set<string>, budget: int, endsAt: int,
    ended: bool, rev: int, votes: seq<Vote>, participants: seq<Participant>,
    requests: map<nat, Request>, frames: seq<Frame>,
    bumped: map<nat, int>, clean: bool)

  /** What a user asks for. */
  datatype Ask = Cast(user: nat, candidate: string) | Join(user: nat, joins: bool) | Finish(user: nat) | End

  /** A request arrives and loads the session; runs its next query; or returns an error.
      `fault` is a failing query after which the handler carries on: an unreadable budget
      counts as nothing used, a failed bump keeps the revision loaded at arrival. */
  datatype Step = Arrive(r: nat, ask: Ask, now: int) | Proceed(r: nat, fault: bool) | Fail(r: nat)

  // ---- queries ----

  function Used(votes: seq<Vote>, user: nat): nat {
    if votes == [] then 0 else Used(votes[..|votes| - 1], user) + if votes[|votes| - 1].voter == user then 1 else 0
  }

  function For(votes: seq<Vote>, candidate: string): nat {
    if votes == [] then 0
    else For(votes[..|votes| - 1], candidate) + if votes[|votes| - 1].candidate == candidate then 1 else 0
  }

  /** One more vote in grouped counts. */
  function Add(counts: seq<Count>, candidate: string): seq<Count> {
    if counts == [] then [Count(candidate, 1)]
    else if counts[0].candidate == candidate then [Count(candidate, counts[0].n + 1)] + counts[1..]
    else [counts[0]] + Add(counts[1..], candidate)
  }

  /** `COUNT(*) ... GROUP BY candidate_id` */
  function Tally(votes: seq<Vote>): seq<Count> {
    if votes == [] then [] else Add(Tally(votes[..|votes| - 1]), votes[|votes| - 1].candidate)
  }

  function Total(counts: seq<Count>): nat {
    if counts == [] then 0 else counts[0].n + Total(counts[1..])
  }

  function UsedByAll(votes: seq<Vote>, participants: seq<Participant>): nat {
    if participants == [] then 0
    else Used(votes, participants[0].user) + UsedByAll(votes, participants[1..])
  }

  predicate IsParticipant(participants: seq<Participant>, user: nat) {
    exists i :: 0 <= i < |participants| && participants[i].user == user
  }

  predicate IsJoined(participants: seq<Participant>, user: nat) {
    exists i :: 0 <= i < |participants| && participants[i].user == user && participants[i].joined
  }

  /** `ON CONFLICT (session_id, user_id) DO UPDATE SET status` */
  function Upsert(participants: seq<Participant>, user: nat, joined: bool): seq<Participant> {
    if participants == [] then [Participant(user, joined, false)]
    else if participants[0].user == user then [participants[0].(joined := joined)] + participants[1..]
    else [participants[0]] + Upsert(participants[1..], user, joined)
  }

  function Finished(participants: seq<Participant>, user: nat): seq<Participant> {
    if participants == [] then []
    else [if participants[0].user == user then participants[0].(finished := true) else participants[0]]
         + Finished(participants[1..], user)
  }

  function JoinedCount(participants: seq<Participant>): nat {
    if participants == [] then 0
    else JoinedCount(participants[..|participants| - 1]) + if participants[|participants| - 1].joined then 1 else 0
  }

  predicate Done(votes: seq<Vote>, budget: int, p: Participant) {
    p.joined && (p.finished || Used(votes, p.user) >= budget)
  }

  function DoneCount(votes: seq<Vote>, budget: int, participants: seq<Participant>): nat {
    if participants == [] then 0
    else DoneCount(votes, budget, participants[..|participants| - 1])
         + if Done(votes, budget, participants[|participants| - 1]) then 1 else 0
  }

  // ---- handlers ----

  function Put(s: State, r: nat, request: Request): State {
    s.(requests := s.requests[r := request])
  }

  function Drop(s: State, r: nat): State {
    s.(requests := s.requests - {r})
  }

  predicate Changed(request: Request) {
    request.AwaitBump? || request.Building? || request.Tallied? || request.Assembled?
    || request.Starting?
  }

  function Loaded(s: State, ask: Ask): Request {
    match ask
    case Cast(user, candidate) => CastLoaded(user, candidate, s.rev)
    case Join(user, joins) => JoinLoaded(user, joins, s.rev)
    case Finish(user) => FinishLoaded(user, s.rev)
    case End => EndLoaded(s.rev)
  }

  function Do(s: State, step: Step): State {
    match step
    case Arrive(r, ask, now) =>
      if r in s.requests || s.ended || (ask.Cast? && s.endsAt <= now) then s else Put(s, r, Loaded(s, ask))
    case Proceed(r, fault) => if r in s.requests then Next(s, r, s.requests[r], fault) else s
    case Fail(r) => if r in s.requests then Drop(s, r).(clean := s.clean && !Changed(s.requests[r])) else s
  }

  /** The next query of a request in flight. */
  function Next(s: State, r: nat, q: Request, fault: bool): State {
    match q
    case Starting(user) => Put(s, r, Building(1, false)).(participants := Upsert(s.participants, user, true))
    case CastLoaded(user, candidate, rev) =>
      if IsJoined(s.participants, user) && candidate in s.candidates then Put(s, r, CastJoined(user, candidate, rev))
      else Drop(s, r)
    case CastJoined(user, candidate, rev) =>
      if !fault && Used(s.votes, user) >= s.budget then Drop(s, r)
      else Put(s, r, CastChecked(user, candidate, rev))
    case CastChecked(user, candidate, rev) =>
      Put(s, r, AwaitBump(rev, Some(|s.votes|))).(votes := s.votes + [Vote(user, candidate)])
    case JoinLoaded(user, joins, rev) =>
      Put(s, r, AwaitBump(rev, None)).(participants := Upsert(s.participants, user, joins))
    case FinishLoaded(user, rev) =>
      if IsJoined(s.participants, user) then Put(s, r, FinishJoined(user, rev)) else Drop(s, r)
    case FinishJoined(user, rev) =>
      Put(s, r, AwaitBump(rev, None)).(participants := Finished(s.participants, user))
    case EndLoaded(_) => Put(s, r, Building(s.rev + 1, true)).(ended := true, rev := s.rev + 1)
    case AwaitBump(rev, vote) =>
      if fault then Put(s, r, Building(rev, false)).(clean := false)
      else Put(s, r, Building(s.rev + 1, false)).(
             rev := s.rev + 1, bumped := if vote.Some? then s.bumped[vote.value := s.rev + 1] else s.bumped)
    case Building(rev, ended) => Put(s, r, Tallied(rev, ended, |s.votes|, Tally(s.votes)))
    case Tallied(rev, ended, seen, counts) =>
      Put(s, r, Assembled(Frame(rev, ended, seen, counts,
                                JoinedCount(s.participants), DoneCount(s.votes, s.budget, s.participants))))
    case Assembled(frame) => Drop(s, r).(frames := s.frames + [frame])
  }

  function Run(s: State, steps: seq<Step>): State {
    if steps == [] then s else Do(Run(s, steps[..|steps| - 1]), steps[|steps| - 1])
  }

  /** `create_session` has inserted the session row; the creator's own row comes next. */
  predicate Init(s: State, creator: nat) {
    && !s.ended && s.rev == 1 && s.votes == [] && s.participants == []
    && s.requests == map[0 := Starting(creator)] && s.frames == []
    && s.bumped == map[] && s.clean
    && 1 <= s.budget <= 50
  }

  // ---- invariant: revisions ----

  function RevOf(q: Request): int {
    match q
    case Starting(_) => 1
    case CastLoaded(_, _, rev) => rev
    case CastJoined(_, _, rev) => rev
    case CastChecked(_, _, rev) => rev
    case JoinLoaded(_, _, rev) => rev
    case FinishLoaded(_, rev) => rev
    case FinishJoined(_, rev) => rev
    case EndLoaded(rev) => rev
    case AwaitBump(rev, _) => rev
    case Building(rev, _) => rev
    case Tallied(rev, _, _, _) => rev
    case Assembled(frame) => frame.rev
  }

  predicate Revs(s: State) {
    && 1 <= s.rev
    && (forall r | r in s.requests :: RevOf(s.requests[r]) <= s.rev)
    && (forall i | 0 <= i < |s.frames| :: s.frames[i].rev <= s.rev)
    && (forall v | v in s.bumped :: v < |s.votes| && s.bumped[v] <= s.rev)
    && (forall r | r in s.requests && s.requests[r].AwaitBump? && s.requests[r].vote.Some? ::
          s.requests[r].vote.value < |s.votes|)
  }

  /** A tally read for revision `rev` over the first `seen` votes misses no vote that was
      acknowledged at `rev` or before. */
  predicate Covers(s: State, rev: int, seen: nat, counts: seq<Count>) {
    && seen <= |s.votes| && counts == Tally(s.votes[..seen])
    && forall v | v in s.bumped && s.bumped[v] <= rev :: v < seen
  }

  predicate RequestCovers(s: State, q: Request) {
    && (q.Tallied? ==> Covers(s, q.rev, q.seen, q.counts))
    && (q.Assembled? ==> Covers(s, q.frame.rev, q.frame.seen, q.frame.counts))
  }

  predicate AllCover(s: State) {
    && (forall r | r in s.requests :: RequestCovers(s, s.requests[r]))
    && (forall i | 0 <= i < |s.frames| :: Covers(s, s.frames[i].rev, s.frames[i].seen, s.frames[i].counts))
  }

  lemma StepRevs(s: State, step: Step)
    requires Revs(s)
    ensures Revs(Do(s, step))
  {
    match step
    case Arrive(r, ask, now) =>
    case Proceed(r, fault) =>
      if r in s.requests {
        NextRevs(s, r, s.requests[r], fault);
      }
    case Fail(r) =>
  }

  lemma NextRevs(s: State, r: nat, q: Request, fault: bool)
    requires Revs(s) && r in s.requests && s.requests[r] == q
    ensures Revs(Next(s, r, q, fault))
  {
    assert RevOf(q) <= s.rev;
    if q.AwaitBump? || q.EndLoaded? {
      BumpRevs(s, r, q, fault);
    } else if q.CastChecked? {
      InsertRevs(s, r, q);
    } else {
      NextLocal(s, r, q, fault);
    }
  }

  /** The other queries touch neither revision nor votes, and their request keeps its revision. */
  lemma NextLocal(s: State, r: nat, q: Request, fault: bool)
    requires r in s.requests && s.requests[r] == q && !q.AwaitBump? && !q.EndLoaded? && !q.CastChecked?
    requires RevOf(q) <= s.rev
    ensures var s' := Next(s, r, q, fault);
            && s'.rev == s.rev && s'.votes == s.votes && s'.bumped == s.bumped
            && (forall k | k in s'.requests && k != r :: k in s.requests && s'.requests[k] == s.requests[k])
            && (r in s'.requests ==> RevOf(s'.requests[r]) == RevOf(q) && (s'.requests[r].AwaitBump? ==> s'.requests[r].vote.None?))
            && (s'.frames == s.frames || (|s'.frames| == |s.frames| + 1 && s'.frames[..|s.frames|] == s.frames
                                          && s'.frames[|s.frames|].rev == RevOf(q)))
  {
  }

  lemma InsertRevs(s: State, r: nat, q: Request)
    requires Revs(s) && r in s.requests && s.requests[r] == q && q.CastChecked?
    ensures Revs(Next(s, r, q, false))
  {
  }

  lemma BumpRevs(s: State, r: nat, q: Request, fault: bool)
    requires Revs(s) && r in s.requests && s.requests[r] == q && (q.AwaitBump? || q.EndLoaded?)
    ensures Revs(Next(s, r, q, fault))
  {
  }

  /** What later steps cannot take away from a tally that was read. */
  lemma CoversForward(s: State, s': State, rev: int, seen: nat, counts: seq<Count>)
    requires Covers(s, rev, seen, counts) && rev <= s.rev
    requires s.votes <= s'.votes
    requires forall v | v in s'.bumped :: (v in s.bumped && s.bumped[v] == s'.bumped[v]) || s.rev < s'.bumped[v]
    ensures Covers(s', rev, seen, counts)
  {
    assert s'.votes[..seen] == s.votes[..seen];
  }

  predicate Forward(s: State, s': State) {
    && s.votes <= s'.votes
    && (forall v | v in s'.bumped :: (v in s.bumped && s.bumped[v] == s'.bumped[v]) || s.rev < s'.bumped[v])
  }

  lemma StepForward(s: State, step: Step)
    ensures Forward(s, Do(s, step))
  {
    if step.Proceed? && step.r in s.requests {
      NextForward(s, step.r, s.requests[step.r], step.fault);
    }
  }

  lemma NextForward(s: State, r: nat, q: Request, fault: bool)
    ensures Forward(s, Next(s, r, q, fault))
  {
  }

  /** The only new request a step can leave behind with a tally is the one that just read it. */
  predicate KeepsTally(s: State, r: nat, q: Request) {
    || (r in s.requests && s.requests[r] == q)
    || (q.Tallied? && q.seen == |s.votes| && q.counts == Tally(s.votes) && r in s.requests && q.rev == RevOf(s.requests[r]))
    || (q.Assembled? && r in s.requests && s.requests[r].Tallied? && q.frame.rev == s.requests[r].rev
        && q.frame.seen == s.requests[r].seen && q.frame.counts == s.requests[r].counts)
    || (!q.Tallied? && !q.Assembled?)
  }

  lemma NewTally(s: State, step: Step, r: nat)
    requires r in Do(s, step).requests
    ensures KeepsTally(s, r, Do(s, step).requests[r])
  {
    match step
    case Arrive(_, ask, _) =>
    case Proceed(k, fault) =>
      if k in s.requests {
        NextTally(s, k, s.requests[k], fault, r);
      }
    case Fail(_) =>
  }

  lemma NextTally(s: State, k: nat, q: Request, fault: bool, r: nat)
    requires k in s.requests && s.requests[k] == q && r in Next(s, k, q, fault).requests
    ensures KeepsTally(s, r, Next(s, k, q, fault).requests[r])
  {
  }

  lemma NewFrame(s: State, step: Step, i: nat)
    requires i < |Do(s, step).frames|
    ensures var f := Do(s, step).frames[i];
            || (i < |s.frames| && s.frames[i] == f)
            || (exists r :: r in s.requests && s.requests[r] == Assembled(f))
  {
    if i >= |s.frames| && step.Proceed? {
      assert s.requests[step.r] == Assembled(Do(s, step).frames[i]);
    }
  }

  lemma FreshTallyCovers(s: State, rev: int)
    requires Revs(s)
    ensures Covers(s, rev, |s.votes|, Tally(s.votes))
  {
    assert s.votes[..|s.votes|] == s.votes;
  }

  lemma StepCovers(s: State, step: Step)
    requires Revs(s) && AllCover(s)
    ensures AllCover(Do(s, step))
  {
    var s' := Do(s, step);
    StepForward(s, step);
    forall r | r in s'.requests
      ensures RequestCovers(s', s'.requests[r])
    {
      NewTally(s, step, r);
      var q := s'.requests[r];
      if q.Tallied? {
        FreshTallyCovers(s, q.rev);
        CoversForward(s, s', q.rev, q.seen, q.counts);
      } else if q.Assembled? {
        CoversForward(s, s', q.frame.rev, q.frame.seen, q.frame.counts);
      }
    }
    forall i | 0 <= i < |s'.frames|
      ensures Covers(s', s'.frames[i].rev, s'.frames[i].seen, s'.frames[i].counts)
    {
      NewFrame(s, step, i);
      CoversForward(s, s', s'.frames[i].rev, s'.frames[i].seen, s'.frames[i].counts);
    }
  }

  lemma {:induction false} RunCovers(s: State, creator: nat, steps: seq<Step>)
    requires Init(s, creator)
    ensures Revs(Run(s, steps)) && AllCover(Run(s, steps))
  {
    if steps != [] {
      RunCovers(s, creator, steps[..|steps| - 1]);
      StepRevs(Run(s, steps[..|steps| - 1]), steps[|steps| - 1]);
      StepCovers(Run(s, steps[..|steps| - 1]), steps[|steps| - 1]);
    }
  }

  /** Under any interleaving, also with failed bumps, a frame with revision r counts every vote
      whose own bump returned a revision at most r, and counts only votes that were cast. */
  lemma FramesCountAcknowledgedVotes(s: State, creator: nat, steps: seq<Step>, i: nat, v: nat)
    requires Init(s, creator)
    requires var t := Run(s, steps); i < |t.frames| && v in t.bumped && t.bumped[v] <= t.frames[i].rev
    ensures var t := Run(s, steps);
            var f := t.frames[i];
            && v < f.seen <= |t.votes|
            && (forall c :: InCounts(f.counts, c) == For(t.votes[..f.seen], c))
  {
    RunCovers(s, creator, steps);
    var t := Run(s, steps);
    TallyExact(t.votes[..t.frames[i].seen]);
  }

  // ---- tallies ----

  function InCounts(counts: seq<Count>, candidate: string): nat {
    if counts == [] then 0
    else (if counts[0].candidate == candidate then counts[0].n else 0) + InCounts(counts[1..], candidate)
  }

  predicate Grouped(counts: seq<Count>) {
    && (forall i | 0 <= i < |counts| :: 1 <= counts[i].n)
    && (forall i, j | 0 <= i < j < |counts| :: counts[i].candidate != counts[j].candidate)
  }

  lemma {:induction false} AddCounts(counts: seq<Count>, candidate: string)
    ensures var after := Add(counts, candidate);
            && Total(after) == Total(counts) + 1
            && (forall c :: InCounts(after, c) == InCounts(counts, c) + if c == candidate then 1 else 0)
  {
    if counts != [] && counts[0].candidate != candidate {
      AddCounts(counts[1..], candidate);
      assert Add(counts, candidate)[1..] == Add(counts[1..], candidate);
    }
  }

  predicate Listed(counts: seq<Count>, candidate: string) {
    exists i :: 0 <= i < |counts| && counts[i].candidate == candidate
  }

  lemma {:induction false} AddGrouped(counts: seq<Count>, candidate: string)
    requires Grouped(counts)
    ensures Grouped(Add(counts, candidate))
    ensures forall c | Listed(Add(counts, candidate), c) :: c == candidate || Listed(counts, c)
  {
    if counts != [] {
      var after := Add(counts, candidate);
      if counts[0].candidate == candidate {
        assert forall i | 0 <= i < |after| :: after[i].candidate == counts[i].candidate;
      } else {
        AddGrouped(counts[1..], candidate);
        ConsGrouped(counts, after, candidate);
      }
    }
  }

  lemma ConsGrouped(counts: seq<Count>, after: seq<Count>, candidate: string)
    requires Grouped(counts) && counts != [] && counts[0].candidate != candidate
    requires after != [] && after == [counts[0]] + after[1..] && Grouped(after[1..])
    requires forall c | Listed(after[1..], c) :: c == candidate || Listed(counts[1..], c)
    ensures Grouped(after)
    ensures forall c | Listed(after, c) :: c == candidate || Listed(counts, c)
  {
    forall i | 0 < i < |after|
      ensures after[i].candidate != counts[0].candidate && 1 <= after[i].n
      ensures after[i].candidate == candidate || Listed(counts, after[i].candidate)
    {
      assert after[i] == after[1..][i - 1];
      assert Listed(after[1..], after[i].candidate);
      if after[i].candidate != candidate {
        var j :| 0 <= j < |counts[1..]| && counts[1..][j].candidate == after[i].candidate;
        assert counts[j + 1].candidate == after[i].candidate;
      }
    }
    forall i, j | 0 <= i < j < |after|
      ensures after[i].candidate != after[j].candidate
    {
      if 0 < i {
        assert after[i] == after[1..][i - 1] && after[j] == after[1..][j - 1];
      }
    }
    assert Listed(counts, counts[0].candidate);
  }

  /** Each candidate has one row with exactly its votes, and the rows add up to all votes. */
  lemma {:induction false} TallyExact(votes: seq<Vote>)
    ensures Grouped(Tally(votes)) && Total(Tally(votes)) == |votes|
    ensures forall c :: InCounts(Tally(votes), c) == For(votes, c)
  {
    if votes != [] {
      TallyExact(votes[..|votes| - 1]);
      AddCounts(Tally(votes[..|votes| - 1]), votes[|votes| - 1].candidate);
      AddGrouped(Tally(votes[..|votes| - 1]), votes[|votes| - 1].candidate);
    }
  }

  // ---- conservation ----

  predicate DistinctUsers(participants: seq<Participant>) {
    forall i, j | 0 <= i < j < |participants| :: participants[i].user != participants[j].user
  }

  /** Every vote and every vote about to be cast belongs to a participant. */
  predicate Rostered(s: State) {
    && DistinctUsers(s.participants)
    && (forall v | 0 <= v < |s.votes| :: IsParticipant(s.participants, s.votes[v].voter))
    && (forall r | r in s.requests && (s.requests[r].CastJoined? || s.requests[r].CastChecked?) ::
          IsParticipant(s.participants, s.requests[r].user))
  }

  lemma {:induction false} UpsertKeeps(p: seq<Participant>, user: nat, joined: bool)
    requires DistinctUsers(p)
    ensures var p' := Upsert(p, user, joined);
            DistinctUsers(p') && forall u :: IsParticipant(p', u) <==> IsParticipant(p, u) || u == user
  {
    if p != [] {
      var p' := Upsert(p, user, joined);
      if p[0].user == user {
        assert forall i | 0 <= i < |p| :: p'[i].user == p[i].user;
        SameUsers(p, p');
      } else {
        UpsertKeeps(p[1..], user, joined);
        assert p'[1..] == Upsert(p[1..], user, joined);
        HeadAndTail(p);
        HeadAndTail(p');
        forall i | 0 < i < |p'|
          ensures p'[i].user != p'[0].user
        {
          assert p'[i] == p'[1..][i - 1];
          assert IsParticipant(p'[1..], p'[i].user);
          NotInTail(p);
        }
        DistinctCons(p');
      }
    } else {
      assert Upsert(p, user, joined)[0].user == user;
    }
  }

  lemma NotInTail(p: seq<Participant>)
    requires p != [] && DistinctUsers(p)
    ensures !IsParticipant(p[1..], p[0].user)
  {
  }

  lemma DistinctCons(p: seq<Participant>)
    requires p != [] && DistinctUsers(p[1..]) && forall i | 0 < i < |p| :: p[i].user != p[0].user
    ensures DistinctUsers(p)
  {
    assert forall i | 0 < i < |p| :: p[i] == p[1..][i - 1];
  }

  lemma HeadAndTail(p: seq<Participant>)
    requires p != []
    ensures forall u :: IsParticipant(p, u) <==> u == p[0].user || IsParticipant(p[1..], u)
  {
    forall u
      ensures IsParticipant(p, u) <==> u == p[0].user || IsParticipant(p[1..], u)
    {
      if IsParticipant(p[1..], u) {
        var i :| 0 <= i < |p[1..]| && p[1..][i].user == u;
        assert p[i + 1].user == u;
      }
      if IsParticipant(p, u) && u != p[0].user {
        var i :| 0 <= i < |p| && p[i].user == u;
        assert p[1..][i - 1].user == u;
      }
    }
  }

  lemma SameUsers(p: seq<Participant>, p': seq<Participant>)
    requires |p| == |p'| && forall i | 0 <= i < |p| :: p'[i].user == p[i].user
    ensures forall u :: IsParticipant(p', u) <==> IsParticipant(p, u)
    ensures DistinctUsers(p) ==> DistinctUsers(p')
  {
    forall u
      ensures IsParticipant(p', u) <==> IsParticipant(p, u)
    {
      if IsParticipant(p, u) {
        var i :| 0 <= i < |p| && p[i].user == u;
        assert p'[i].user == u;
      }
    }
  }

  lemma {:induction false} FinishedKeeps(p: seq<Participant>, user: nat)
    ensures |Finished(p, user)| == |p| && forall i | 0 <= i < |p| :: Finished(p, user)[i].user == p[i].user
  {
    if p != [] {
      FinishedKeeps(p[1..], user);
    }
  }

  lemma StepRostered(s: State, step: Step)
    requires Rostered(s)
    ensures Rostered(Do(s, step))
  {
    match step
    case Arrive(r, ask, now) =>
    case Proceed(r, fault) =>
      if r in s.requests {
        NextRoster(s, r, s.requests[r], fault);
        NextRostered(s, r, s.requests[r], fault);
      }
    case Fail(r) =>
  }

  ghost predicate RosterGrows(p: seq<Participant>, p': seq<Participant>) {
    && DistinctUsers(p')
    && forall u | IsParticipant(p, u) :: IsParticipant(p', u)
  }

  lemma NextRoster(s: State, r: nat, q: Request, fault: bool)
    requires Rostered(s)
    ensures RosterGrows(s.participants, Next(s, r, q, fault).participants)
  {
    match q
    case JoinLoaded(user, joins, _) => UpsertKeeps(s.participants, user, joins);
    case Starting(user) => UpsertKeeps(s.participants, user, true);
    case FinishJoined(user, _) =>
      FinishedKeeps(s.participants, user);
      SameUsers(s.participants, Finished(s.participants, user));
    case _ =>
  }

  /** Users who may vote after the step could before, or the step found them joined. */
  lemma NextVoters(s: State, r: nat, q: Request, fault: bool)
    requires Rostered(s) && r in s.requests && s.requests[r] == q
    ensures var s' := Next(s, r, q, fault);
            && (forall v | 0 <= v < |s'.votes| :: IsParticipant(s.participants, s'.votes[v].voter))
            && (forall k | k in s'.requests && (s'.requests[k].CastJoined? || s'.requests[k].CastChecked?) ::
                  IsParticipant(s.participants, s'.requests[k].user))
  {
    match q
    case CastChecked(user, candidate, rev) =>
      assert IsParticipant(s.participants, user);
      assert Next(s, r, q, fault).votes == s.votes + [Vote(user, candidate)];
    case CastLoaded(user, candidate, rev) =>
      if IsJoined(s.participants, user) {
        JoinedIsParticipant(s.participants, user);
      }
      assert Next(s, r, q, fault).votes == s.votes;
    case CastJoined(user, candidate, rev) =>
      assert IsParticipant(s.participants, user);
      assert Next(s, r, q, fault).votes == s.votes;
    case _ =>
      assert Next(s, r, q, fault).votes == s.votes;
  }

  lemma JoinedIsParticipant(p: seq<Participant>, user: nat)
    requires IsJoined(p, user)
    ensures IsParticipant(p, user)
  {
  }

  lemma NextRostered(s: State, r: nat, q: Request, fault: bool)
    requires Rostered(s) && r in s.requests && s.requests[r] == q
    requires RosterGrows(s.participants, Next(s, r, q, fault).participants)
    ensures Rostered(Next(s, r, q, fault))
  {
    NextVoters(s, r, q, fault);
  }

  lemma {:induction false} RunRostered(s: State, creator: nat, steps: seq<Step>)
    requires Init(s, creator)
    ensures Rostered(Run(s, steps))
  {
    if steps != [] {
      RunRostered(s, creator, steps[..|steps| - 1]);
      StepRostered(Run(s, steps[..|steps| - 1]), steps[|steps| - 1]);
    }
  }

  lemma {:induction false} NobodyUsed(participants: seq<Participant>)
    ensures UsedByAll([], participants) == 0
  {
    if participants != [] {
      NobodyUsed(participants[1..]);
    }
  }

  lemma {:induction false} OneMoreUsed(votes: seq<Vote>, v: Vote, participants: seq<Participant>)
    requires DistinctUsers(participants)
    ensures UsedByAll(votes + [v], participants)
            == UsedByAll(votes, participants) + if IsParticipant(participants, v.voter) then 1 else 0
  {
    assert (votes + [v])[..|votes|] == votes;
    if participants != [] {
      OneMoreUsed(votes, v, participants[1..]);
      HeadAndTail(participants);
      NotInTail(participants);
    }
  }

  lemma {:induction false} AllUsed(votes: seq<Vote>, participants: seq<Participant>)
    requires DistinctUsers(participants)
    requires forall v | 0 <= v < |votes| :: IsParticipant(participants, votes[v].voter)
    ensures UsedByAll(votes, participants) == |votes|
  {
    if votes == [] {
      NobodyUsed(participants);
    } else {
      var front := votes[..|votes| - 1];
      AllUsed(front, participants);
      OneMoreUsed(front, votes[|votes| - 1], participants);
      assert votes == front + [votes[|votes| - 1]];
    }
  }

  /** In every reachable state the tally's total is the sum of the participants' used votes. */
  lemma {:induction false} TallyMatchesParticipants(s: State, creator: nat, steps: seq<Step>)
    requires Init(s, creator)
    ensures var t := Run(s, steps); Total(Tally(t.votes)) == UsedByAll(t.votes, t.participants)
  {
    RunRostered(s, creator, steps);
    TallyExact(Run(s, steps).votes);
    AllUsed(Run(s, steps).votes, Run(s, steps).participants);
  }

  // ---- convergence ----

  /** The request that will broadcast, or has broadcast, the current revision. */
  predicate Carries(q: Request, rev: int) {
    match q
    case Starting(_) => rev == 1
    case Building(r, _) => r == rev
    case Tallied(r, _, _, _) => r == rev
    case Assembled(f) => f.rev == rev
    case _ => false
  }

  predicate Carried(s: State) {
    || (exists r :: r in s.requests && Carries(s.requests[r], s.rev))
    || (exists i :: 0 <= i < |s.frames| && s.frames[i].rev == s.rev)
  }

  predicate Awaited(s: State, v: nat) {
    exists r :: r in s.requests && s.requests[r] == AwaitBump(RevOf(s.requests[r]), Some(v))
  }

  /** As long as nothing failed: the current revision has its frame or a request that will send
      it, and every vote was bumped or is about to be. */
  predicate Pursued(s: State) {
    s.clean ==> Carried(s) && forall v: nat | v < |s.votes| :: v in s.bumped || Awaited(s, v)
  }

  lemma NextCarries(s: State, r: nat, q: Request, fault: bool)
    requires Revs(s) && r in s.requests && s.requests[r] == q && Next(s, r, q, fault).clean
    requires Carries(q, s.rev) || Next(s, r, q, fault).rev != s.rev
    ensures Carried(Next(s, r, q, fault))
  {
    var s' := Next(s, r, q, fault);
    match q
    case Assembled(f) => assert s'.frames[|s.frames|] == f;
    case Starting(_) => CarriedBy(s', r);
    case EndLoaded(_) => CarriedBy(s', r);
    case AwaitBump(_, _) => CarriedBy(s', r);
    case Building(_, _) => CarriedBy(s', r);
    case Tallied(_, _, _, _) => CarriedBy(s', r);
    case _ =>
  }

  lemma CarriedBy(s: State, r: nat)
    requires r in s.requests && Carries(s.requests[r], s.rev)
    ensures Carried(s)
  {
  }

  lemma NextElsewhere(s: State, r: nat, q: Request, fault: bool)
    ensures var s' := Next(s, r, q, fault);
            && s.frames <= s'.frames
            && forall k | k in s.requests && k != r :: k in s'.requests && s'.requests[k] == s.requests[k]
  {
  }

  lemma NextCarried(s: State, r: nat, q: Request, fault: bool)
    requires Revs(s) && Carried(s) && r in s.requests && s.requests[r] == q
    requires Next(s, r, q, fault).clean
    ensures Carried(Next(s, r, q, fault))
  {
    if Carries(q, s.rev) || Next(s, r, q, fault).rev != s.rev {
      NextCarries(s, r, q, fault);
    } else {
      NextElsewhere(s, r, q, fault);
      CarriedElsewhere(s, Next(s, r, q, fault), r);
    }
  }

  lemma CarriedElsewhere(s: State, s': State, r: nat)
    requires Carried(s) && s'.rev == s.rev && s.frames <= s'.frames
    requires r in s.requests && !Carries(s.requests[r], s.rev)
    requires forall k | k in s.requests && k != r :: k in s'.requests && s'.requests[k] == s.requests[k]
    ensures Carried(s')
  {
    if exists k :: k in s.requests && Carries(s.requests[k], s.rev) {
      var k :| k in s.requests && Carries(s.requests[k], s.rev);
      assert k in s'.requests && s'.requests[k] == s.requests[k];
    } else {
      var i :| 0 <= i < |s.frames| && s.frames[i].rev == s.rev;
      assert s'.frames[i] == s.frames[i];
    }
  }

  lemma NextAwaited(s: State, r: nat, q: Request, fault: bool, v: nat)
    requires r in s.requests && s.requests[r] == q && Next(s, r, q, fault).clean
    requires v < |Next(s, r, q, fault).votes|
    requires v < |s.votes| ==> v in s.bumped || Awaited(s, v)
    ensures var s' := Next(s, r, q, fault); v in s'.bumped || Awaited(s', v)
  {
    var s' := Next(s, r, q, fault);
    if v >= |s.votes| {
      assert s'.requests[r] == AwaitBump(RevOf(s'.requests[r]), Some(v));
    } else if v !in s'.bumped {
      var k :| k in s.requests && s.requests[k] == AwaitBump(RevOf(s.requests[k]), Some(v));
      assert k != r && s'.requests[k] == s.requests[k];
    }
  }

  lemma StepPursued(s: State, step: Step)
    requires Revs(s) && Pursued(s)
    ensures Pursued(Do(s, step))
  {
    var s' := Do(s, step);
    if s'.clean {
      match step
      case Arrive(r, ask, now) => ArrivePursued(s, step);
      case Proceed(r, fault) =>
        if r in s.requests {
          NextCarried(s, r, s.requests[r], fault);
          forall v: nat | v < |s'.votes|
            ensures v in s'.bumped || Awaited(s', v)
          {
            NextAwaited(s, r, s.requests[r], fault, v);
          }
        }
      case Fail(r) => FailPursued(s, r);
    }
  }

  lemma ArrivePursued(s: State, step: Step)
    requires Pursued(s) && s.clean && step.Arrive?
    ensures Pursued(Do(s, step))
  {
    var s' := Do(s, step);
    if exists k :: k in s.requests && Carries(s.requests[k], s.rev) {
      var k :| k in s.requests && Carries(s.requests[k], s.rev);
      assert k in s'.requests && s'.requests[k] == s.requests[k];
    }
    forall v: nat | v < |s'.votes| && v !in s'.bumped
      ensures Awaited(s', v)
    {
      var k :| k in s.requests && s.requests[k] == AwaitBump(RevOf(s.requests[k]), Some(v));
      assert s'.requests[k] == s.requests[k];
    }
  }

  lemma FailPursued(s: State, r: nat)
    requires Pursued(s) && Do(s, Fail(r)).clean
    ensures Pursued(Do(s, Fail(r)))
  {
    var s' := Do(s, Fail(r));
    if exists k :: k in s.requests && Carries(s.requests[k], s.rev) {
      var k :| k in s.requests && Carries(s.requests[k], s.rev);
      assert k in s'.requests && s'.requests[k] == s.requests[k];
    }
    forall v: nat | v < |s'.votes| && v !in s'.bumped
      ensures Awaited(s', v)
    {
      var k :| k in s.requests && s.requests[k] == AwaitBump(RevOf(s.requests[k]), Some(v));
      assert k in s'.requests && s'.requests[k] == s.requests[k];
    }
  }

  lemma {:induction false} RunPursued(s: State, creator: nat, steps: seq<Step>)
    requires Init(s, creator)
    ensures Pursued(Run(s, steps))
  {
    if steps == [] {
      assert 0 in s.requests && Carries(s.requests[0], s.rev);
    } else {
      RunPursued(s, creator, steps[..|steps| - 1]);
      RunCovers(s, creator, steps[..|steps| - 1]);
      StepPursued(Run(s, steps[..|steps| - 1]), steps[|steps| - 1]);
    }
  }

  /** When all requests have completed and none failed after changing the session, the frame
      with the highest revision, the one clients keep, is the exact final tally. */
  lemma LastFrameIsFinal(s: State, creator: nat, steps: seq<Step>)
    requires Init(s, creator)
    requires Run(s, steps).requests == map[] && Run(s, steps).clean
    ensures var t := Run(s, steps);
            && (exists i :: 0 <= i < |t.frames| && t.frames[i].rev == t.rev)
            && (forall i | 0 <= i < |t.frames| :: t.frames[i].rev <= t.rev)
            && (forall i | 0 <= i < |t.frames| && t.frames[i].rev == t.rev ::
                  t.frames[i].seen == |t.votes| && t.frames[i].counts == Tally(t.votes))
  {
    RunPursued(s, creator, steps);
    RunCovers(s, creator, steps);
    var t := Run(s, steps);
    forall i | 0 <= i < |t.frames| && t.frames[i].rev == t.rev
      ensures t.frames[i].seen == |t.votes| && t.frames[i].counts == Tally(t.votes)
    {
      FrameIsFinal(t, i);
    }
  }

  lemma FrameIsFinal(t: State, i: nat)
    requires Pursued(t) && Revs(t) && AllCover(t) && t.clean && t.requests == map[]
    requires i < |t.frames| && t.frames[i].rev == t.rev
    ensures t.frames[i].seen == |t.votes| && t.frames[i].counts == Tally(t.votes)
  {
    assert Covers(t, t.frames[i].rev, t.frames[i].seen, t.frames[i].counts);
    assert forall v: nat | v < |t.votes| :: v in t.bumped || Awaited(t, v);
    if |t.votes| > 0 {
      assert |t.votes| - 1 in t.bumped;
    }
    assert t.votes[..|t.votes|] == t.votes;
  }

  // ---- building the frame ----

  /** `compact_state`'s map of counts, filled row by row. */
  method CompactCounts(votes: seq<Vote>) returns (counts: map<string, nat>)
    ensures forall c :: c in counts <==> 0 < For(votes, c)
    ensures forall c | c in counts :: counts[c] == For(votes, c)
  {
    var rows := Tally(votes);
    TallyExact(votes);
    counts := map[];
    var i := 0;
    while i < |rows|
      invariant 0 <= i <= |rows| && Filled(counts, rows[..i])
    {
      FilledPush(counts, rows, i);
      counts := counts[rows[i].candidate := rows[i].n];
      i := i + 1;
    }
    assert rows[..i] == rows;
    RowsAreCounts(rows, counts);
  }

  /** The map holds exactly the given rows. */
  ghost predicate Filled(counts: map<string, nat>, rows: seq<Count>) {
    && (forall c | c in counts :: Listed(rows, c))
    && (forall j | 0 <= j < |rows| :: rows[j].candidate in counts && counts[rows[j].candidate] == rows[j].n)
  }

  lemma FilledPush(counts: map<string, nat>, rows: seq<Count>, i: nat)
    requires i < |rows| && Grouped(rows) && Filled(counts, rows[..i])
    ensures Filled(counts[rows[i].candidate := rows[i].n], rows[..i + 1])
  {
    ListedPush(rows, i);
    var longer, after := rows[..i + 1], counts[rows[i].candidate := rows[i].n];
    forall j | 0 <= j < |longer|
      ensures longer[j].candidate in after && after[longer[j].candidate] == longer[j].n
    {
      if j < i {
        assert rows[..i][j] == longer[j] && longer[j].candidate != rows[i].candidate;
      }
    }
  }

  lemma RowsAreCounts(rows: seq<Count>, counts: map<string, nat>)
    requires Grouped(rows) && Filled(counts, rows)
    ensures forall c :: c in counts <==> 0 < InCounts(rows, c)
    ensures forall c | c in counts :: counts[c] == InCounts(rows, c)
  {
    forall c
      ensures c in counts <==> 0 < InCounts(rows, c)
      ensures c in counts ==> counts[c] == InCounts(rows, c)
    {
      CountOf(rows, c);
    }
  }

  lemma ListedPush(rows: seq<Count>, i: nat)
    requires i < |rows|
    ensures forall c :: Listed(rows[..i + 1], c) <==> Listed(rows[..i], c) || c == rows[i].candidate
  {
    var longer := rows[..i + 1];
    assert longer[i] == rows[i] && forall j | 0 <= j < i :: longer[j] == rows[..i][j];
  }

  lemma {:induction false} CountOf(rows: seq<Count>, c: string)
    requires Grouped(rows)
    ensures forall i | 0 <= i < |rows| && rows[i].candidate == c :: rows[i].n == InCounts(rows, c)
    ensures Listed(rows, c) <==> 0 < InCounts(rows, c)
  {
    if rows != [] {
      var rest := rows[1..];
      assert Grouped(rest);
      CountOf(rest, c);
      assert forall i | 0 < i < |rows| :: rows[i] == rest[i - 1];
      assert Listed(rows, c) <==> rows[0].candidate == c || Listed(rest, c);
      if rows[0].candidate == c {
        assert !Listed(rest, c);
      }
    }
  }

  /** `compact_state`'s two filters over the participants. */
  method CompactCompletion(votes: seq<Vote>, budget: int, participants: seq<Participant>) returns (joined: nat, voted: nat)
    ensures joined == JoinedCount(participants) && voted == DoneCount(votes, budget, participants)
    ensures voted <= joined
  {
    joined, voted := 0, 0;
    var i := 0;
    while i < |participants|
      invariant 0 <= i <= |participants|
      invariant joined == JoinedCount(participants[..i]) && voted == DoneCount(votes, budget, participants[..i])
      invariant voted <= joined
    {
      assert participants[..i + 1][..i] == participants[..i];
      var p := participants[i];
      if p.joined {
        joined := joined + 1;
        if p.finished || Used(votes, p.user) >= budget {
          voted := voted + 1;
        }
      }
      i := i + 1;
    }
    assert participants[..i] == participants;
  }
}
