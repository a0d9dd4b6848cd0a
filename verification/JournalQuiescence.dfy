/** Compaction quiesces: a board with a checkpoint at its watermark is not selected again
    until a new update commits, one undisturbed round puts that checkpoint there, and rounds
    over many boards empty the candidate list. */
module JournalQuiescence {
  import opened Wrappers
  import opened IntSets
  import opened Replay
  import opened CanonicalTables
  import opened JournalProtocol
  import opened JournalInvariant
  import opened JournalSteps
  import opened JournalCompaction
  import opened JournalClients
  import opened JournalTheorems

  /** The newest revision has a checkpoint. */
  ghost predicate Settled(b: Base, s: System) {
    Watermark(b, s.history) in Checkpoints(s.t, b)
  }

  lemma SettledIsNoCandidate(e: Engine, b: Base, s: System, minUpdates: int, minBytes: int)
    requires Inv(e, b, s) && Settled(b, s)
    ensures !IsCandidate(s.t, minUpdates, minBytes)
  {
    var w := Watermark(b, s.history);
    if s.t.head.Some? && s.t.head.value.state == Ready {
      var newest := ReadLatestAtOrBefore(s.t, b.clientId, b.generation, w);
      assert newest.Some? && newest.value.0 == w;
      assert RowsOf(Journal(s.t.updates, b.generation), w, w) == [];
    }
  }

  /** Conversely a ready board that is not settled is selected at the smallest thresholds. */
  lemma UnsettledIsCandidate(e: Engine, b: Base, s: System, minUpdates: int, minBytes: int)
    requires Inv(e, b, s) && !Settled(b, s) && Serving(s.t) && minUpdates <= 1
    ensures IsCandidate(s.t, minUpdates, minBytes)
  {
    var w := Watermark(b, s.history);
    var newest := ReadLatestAtOrBefore(s.t, b.clientId, b.generation, w);
    if newest.Some? {
      var k := newest.value.0;
      assert k < w;
      ScanAboveFloorOfNewest(e, b, s.t, s.history, k);
      var tail := RowsOf(Journal(s.t.updates, b.generation), k, w);
      if tail == [] {
        RowsEmpty(Journal(s.t.updates, b.generation), k, w);
      }
    }
  }

  lemma ScanAboveFloorOfNewest(e: Engine, b: Base, t: Tables, history: map<int, Bytes>, newest: int)
    requires Content(b, t, history) && Sound(e, b, t, history)
    requires newest in Checkpoints(t, b) && forall k | k in Checkpoints(t, b) :: k <= newest
    requires newest < Watermark(b, history)
    ensures Watermark(b, history) in Journal(t.updates, b.generation)
  {
    FloorAboveBase(e, b, t, history);
    assert Watermark(b, history) in history && b.baseSeq < Watermark(b, history);
  }

  lemma {:induction false} RunFrom(e: Engine, b: Base, s: System, steps: seq<Step>)
    requires Inv(e, b, s)
    ensures Inv(e, b, Run(e, s, steps))
    ensures forall key | key in s.t.snapshots ::
              key in Run(e, s, steps).t.snapshots && Run(e, s, steps).t.snapshots[key] == s.t.snapshots[key]
    ensures forall k | k in s.history :: k in Run(e, s, steps).history && Run(e, s, steps).history[k] == s.history[k]
  {
    if steps != [] {
      RunFrom(e, b, s, steps[..|steps| - 1]);
      var before := Run(e, s, steps[..|steps| - 1]);
      StepKeeps(e, b, before, steps[|steps| - 1]);
      CheckpointsAreImmutable(e, before, steps[|steps| - 1]);
      HistoryOnlyGrows(e, b, before, steps[|steps| - 1]);
    }
  }

  /** A settled board becomes a candidate again only after a new update was committed,
      whatever activations, takeovers, compactions and prunes run meanwhile. */
  lemma {:induction false} SettledUntilNewCommit(e: Engine, b: Base, s: System, after: seq<Step>, s': System, minUpdates: int, minBytes: int)
    requires Reachable(e, b, s) && Settled(b, s)
    requires s' == Run(e, s, after) && IsCandidate(s'.t, minUpdates, minBytes)
    ensures exists k :: k in s'.history && k !in s.history
  {
    ReachableInv(e, b, s);
    RunFrom(e, b, s, after);
    NewHistory(e, b, s, s', minUpdates, minBytes);
  }

  lemma NewHistory(e: Engine, b: Base, s: System, s': System, minUpdates: int, minBytes: int)
    requires Settled(b, s) && Inv(e, b, s') && IsCandidate(s'.t, minUpdates, minBytes)
    requires forall key | key in s.t.snapshots :: key in s'.t.snapshots
    requires forall k | k in s.history :: k in s'.history
    ensures exists k :: k in s'.history && k !in s.history
  {
    CheckpointsSurvive(b, s, s', Watermark(b, s.history));
    if Settled(b, s') {
      SettledIsNoCandidate(e, b, s', minUpdates, minBytes);
    } else {
      assert Watermark(b, s'.history) != Watermark(b, s.history);
      assert s'.history.Keys != s.history.Keys;
    }
  }

  lemma CheckpointsSurvive(b: Base, s: System, s': System, k: int)
    requires k in Checkpoints(s.t, b)
    requires forall key | key in s.t.snapshots :: key in s'.t.snapshots
    ensures k in Checkpoints(s'.t, b)
  {
    CheckpointKey(s.t, b, k);
    CheckpointKey(s'.t, b, k);
  }

  // ---- one undisturbed round ----

  /** `compact_one` with no other step in between, reading `pages` journal pages. */
  function Round(c: nat, minUpdates: int, minBytes: int, pages: nat): seq<Step> {
    [CompactChoose(c, minUpdates, minBytes), CompactVerify(c), CompactStart(c)]
    + seq(pages, i => CompactPage(c)) + [CompactPublish(c)]
  }

  lemma {:induction false} RunAppend(e: Engine, s: System, a: seq<Step>, b: seq<Step>)
    ensures Run(e, s, a + b) == Run(e, Run(e, s, a), b)
  {
    if b == [] {
      assert a + b == a;
    } else {
      assert (a + b)[..|a + b| - 1] == a + b[..|b| - 1];
      RunAppend(e, s, a, b[..|b| - 1]);
    }
  }

  /** Paging only moves the job's own cursor, and every page but the last moves it forward. */
  lemma PageStep(e: Engine, s: System, c: nat)
    requires c in s.compactors && s.compactors[c].Tailing? && !TailComplete(s.compactors[c])
    ensures var s' := Do(e, s, CompactPage(c));
            && s' == s.(compactors := s'.compactors)
            && c in s'.compactors && s'.compactors[c].Tailing?
            && s'.compactors[c].candidate == s.compactors[c].candidate
            && (TailComplete(s'.compactors[c]) || s.compactors[c].cursor < s'.compactors[c].cursor)
  {
    var w := s.compactors[c];
    RowsExact(Journal(s.t.updates, w.candidate.generation), w.cursor, w.candidate.processedSeq);
  }

  lemma {:induction false} PagesDrain(e: Engine, s: System, c: nat) returns (n: nat)
    requires c in s.compactors && s.compactors[c].Tailing?
    ensures var s' := Run(e, s, seq(n, i => CompactPage(c)));
            && s' == s.(compactors := s'.compactors)
            && c in s'.compactors && TailComplete(s'.compactors[c])
            && s'.compactors[c].candidate == s.compactors[c].candidate
    decreases if TailComplete(s.compactors[c]) then 0 else 1,
              s.compactors[c].candidate.processedSeq - s.compactors[c].cursor
  {
    if TailComplete(s.compactors[c]) {
      n := 0;
      assert seq(n, i => CompactPage(c)) == [];
    } else {
      PageStep(e, s, c);
      var s1 := Do(e, s, CompactPage(c));
      var m := PagesDrain(e, s1, c);
      n := m + 1;
      var one: seq<Step> := [CompactPage(c)];
      assert seq(n, i => CompactPage(c)) == one + seq(m, i => CompactPage(c));
      assert one[..|one| - 1] == [];
      assert Run(e, s, one) == s1;
      RunAppend(e, s, one, seq(m, i => CompactPage(c)));
    }
  }

  /** The newest document loads again, so a compaction may write it. */
  ghost predicate Reloadable(e: Engine, b: Base, s: System) {
    var doc := DocAt(e, b, s.history, Watermark(b, s.history));
    doc.Some? && e.reloads(doc.value)
  }

  lemma PublishSettles(e: Engine, b: Base, s: System, c: nat)
    requires Inv(e, b, s) && Serving(s.t)
    requires c in s.compactors && TailComplete(s.compactors[c])
    requires var h := s.t.head.value;
             s.compactors[c].candidate == Candidate(h.processedSeq, h.generation, h.epoch, b.clientId)
    requires Reloadable(e, b, s)
    ensures Published(b, s, Do(e, s, CompactPublish(c)))
  {
    var w := s.compactors[c];
    assert CompactorOk(e, b, s.t, s.history, w);
    CompactedIsDoc(e, b, s.t, s.history, w);
    PublishNeverCollides(e, b, s, w);
    CheckpointJoins(b, s.t, Do(e, s, CompactPublish(c)).t, Watermark(b, s.history), Encoded(e, Compacted(e, w).value));
  }

  /** Nothing changed but that the newest revision has its checkpoint and compactions moved on. */
  ghost predicate Published(b: Base, s: System, s': System) {
    && s' == s.(t := s'.t, compactors := s'.compactors)
    && s'.t == s.t.(snapshots := s'.t.snapshots)
    && Checkpoints(s'.t, b) == Checkpoints(s.t, b) + {Watermark(b, s.history)}
  }

  lemma ChooseVerifyStart(e: Engine, s: System, c: nat, minUpdates: int, minBytes: int)
    requires IsCandidate(s.t, minUpdates, minBytes)
    ensures var h := s.t.head.value;
            var s' := Run(e, s, [CompactChoose(c, minUpdates, minBytes), CompactVerify(c), CompactStart(c)]);
            && s' == s.(compactors := s'.compactors)
            && c in s'.compactors && s'.compactors[c].Tailing?
            && s'.compactors[c].candidate == Candidate(h.processedSeq, h.generation, h.epoch, s.t.base.value.clientId)
  {
    var choose: seq<Step> := [CompactChoose(c, minUpdates, minBytes)];
    var verify := choose + [CompactVerify(c)];
    var all := verify + [CompactStart(c)];
    assert all == [CompactChoose(c, minUpdates, minBytes), CompactVerify(c), CompactStart(c)];
    assert all[..|all| - 1] == verify && verify[..|verify| - 1] == choose && choose[..|choose| - 1] == [];
    assert Run(e, s, []) == s;
    var s1 := Run(e, s, choose);
    assert s1 == DoCompactChoose(s, c, minUpdates, minBytes);
    var s2 := Run(e, s, verify);
    assert s2 == DoCompactVerify(s1, c) && s2.compactors[c].Verified?;
  }

  /** One undisturbed round of a selected board publishes its newest revision, after which the
      board is not selected at any thresholds. */
  lemma OneRoundSettles(e: Engine, b: Base, s: System, c: nat, minUpdates: int, minBytes: int) returns (pages: nat)
    requires Inv(e, b, s) && IsCandidate(s.t, minUpdates, minBytes) && Reloadable(e, b, s)
    ensures var s' := Run(e, s, Round(c, minUpdates, minBytes, pages));
            && Inv(e, b, s') && Published(b, s, s') && Settled(b, s')
            && (forall u: int, y: int :: !IsCandidate(s'.t, u, y))
  {
    var head: seq<Step> := [CompactChoose(c, minUpdates, minBytes), CompactVerify(c), CompactStart(c)];
    ChooseVerifyStart(e, s, c, minUpdates, minBytes);
    var s1 := Run(e, s, head);
    pages := PagesDrain(e, s1, c);
    var middle := seq(pages, i => CompactPage(c));
    var last: seq<Step> := [CompactPublish(c)];
    RunAppend(e, s, head, middle);
    RunAppend(e, s, head + middle, last);
    var s2 := Run(e, s, head + middle);
    assert last[..|last| - 1] == [];
    assert Run(e, s2, []) == s2;
    RunFrom(e, b, s, head + middle);
    RunFrom(e, b, s2, last);
    PublishSettles(e, b, s2, c);
    var s' := Run(e, s, Round(c, minUpdates, minBytes, pages));
    forall u: int, y: int
      ensures !IsCandidate(s'.t, u, y)
    {
      SettledIsNoCandidate(e, b, s', u, y);
    }
  }

  // ---- many boards ----

  /** A fleet of boards, each with its base and its state. */
  datatype Board = Board(base: Base, s: System)

  /** `list_compaction_candidates`, without its limit. */
  ghost function Candidates(boards: map<nat, Board>, minUpdates: int, minBytes: int): set<nat> {
    set i | i in boards.Keys && IsCandidate(boards[i].s.t, minUpdates, minBytes)
  }

  ghost predicate FleetOk(e: Engine, boards: map<nat, Board>) {
    forall i | i in boards :: Reachable(e, boards[i].base, boards[i].s) && Reloadable(e, boards[i].base, boards[i].s)
  }

  /** Nothing but compaction happened: the same boards with the same histories, each reached
      by a run. */
  ghost predicate CompactedTo(e: Engine, boards: map<nat, Board>, after: map<nat, Board>) {
    && after.Keys == boards.Keys
    && forall i | i in boards ::
         && after[i].base == boards[i].base && after[i].s.history == boards[i].s.history
         && exists steps :: after[i].s == Run(e, boards[i].s, steps)
  }

  lemma FleetPut(e: Engine, boards: map<nat, Board>, i: nat, s: System)
    requires FleetOk(e, boards) && i in boards && Reachable(e, boards[i].base, s) && Reloadable(e, boards[i].base, s)
    ensures FleetOk(e, boards[i := Board(boards[i].base, s)])
  {
  }

  lemma ListWithout(boards: map<nat, Board>, i: nat, s: System, minUpdates: int, minBytes: int)
    requires i in boards && !IsCandidate(s.t, minUpdates, minBytes)
    ensures Candidates(boards[i := Board(boards[i].base, s)], minUpdates, minBytes) == Candidates(boards, minUpdates, minBytes) - {i}
  {
  }

  lemma ReachableRun(e: Engine, b: Base, s: System, steps: seq<Step>)
    requires Reachable(e, b, s)
    ensures Reachable(e, b, Run(e, s, steps))
  {
    var init, before :| Init(e, b, init) && s == Run(e, init, before);
    RunAppend(e, init, before, steps);
    assert Run(e, s, steps) == Run(e, init, before + steps);
  }

  /** One undisturbed round takes its board off the candidate list and adds none. */
  lemma RoundShrinksList(e: Engine, boards: map<nat, Board>, i: nat, c: nat, minUpdates: int, minBytes: int)
    returns (after: map<nat, Board>, steps: seq<Step>)
    requires FleetOk(e, boards) && i in Candidates(boards, minUpdates, minBytes)
    ensures after == boards[i := Board(boards[i].base, Run(e, boards[i].s, steps))] && FleetOk(e, after)
    ensures after[i].s.history == boards[i].s.history
    ensures Candidates(after, minUpdates, minBytes) == Candidates(boards, minUpdates, minBytes) - {i}
  {
    ReachableInv(e, boards[i].base, boards[i].s);
    var pages := OneRoundSettles(e, boards[i].base, boards[i].s, c, minUpdates, minBytes);
    steps := Round(c, minUpdates, minBytes, pages);
    var s := Run(e, boards[i].s, steps);
    ReachableRun(e, boards[i].base, boards[i].s, steps);
    FleetPut(e, boards, i, s);
    ListWithout(boards, i, s, minUpdates, minBytes);
    after := boards[i := Board(boards[i].base, s)];
  }

  ghost predicate Enumerates(order: seq<nat>, all: set<nat>) {
    && (forall i, j | 0 <= i < j < |order| :: order[i] != order[j])
    && all == set i | 0 <= i < |order| :: order[i]
  }

  /** One cycle compacts the boards it listed, one after the other, and takes exactly those off
      the candidate list. */
  lemma {:induction false} CycleTakesListed(e: Engine, boards: map<nat, Board>, order: seq<nat>, listed: set<nat>,
                                            c: nat, minUpdates: int, minBytes: int)
    returns (after: map<nat, Board>)
    requires FleetOk(e, boards) && Enumerates(order, listed) && listed <= Candidates(boards, minUpdates, minBytes)
    ensures FleetOk(e, after) && CompactedTo(e, boards, after)
    ensures Candidates(after, minUpdates, minBytes) == Candidates(boards, minUpdates, minBytes) - listed
    decreases |order|
  {
    if order == [] {
      after := boards;
      Untouched(e, boards);
    } else {
      RestOfOrder(order, listed);
      var next, steps := RoundShrinksList(e, boards, order[0], c, minUpdates, minBytes);
      after := CycleTakesListed(e, next, order[1..], listed - {order[0]}, c, minUpdates, minBytes);
      ChainRuns(e, boards, next, after, order[0], steps);
    }
  }

  /** `limit.clamp(1, 1_000)` */
  function ClampBatch(limit: int): (r: nat)
    ensures 1 <= r <= 1_000
  {
    if limit < 1 then 1 else if limit > 1_000 then 1_000 else limit
  }

  /** A candidate query with a limit: as many candidates as fit, in any order. */
  ghost predicate Lists(query: set<nat> -> seq<nat>, limit: nat) {
    forall all: set<nat> ::
      && (forall i, j | 0 <= i < j < |query(all)| :: query(all)[i] != query(all)[j])
      && (forall i | 0 <= i < |query(all)| :: query(all)[i] in all)
      && |query(all)| == if |all| <= limit then |all| else limit
  }

  lemma {:induction false} DistinctSize(order: seq<nat>)
    requires forall i, j | 0 <= i < j < |order| :: order[i] != order[j]
    ensures |set i | 0 <= i < |order| :: order[i]| == |order|
  {
    if order != [] {
      var front := order[..|order| - 1];
      DistinctSize(front);
      assert (set i | 0 <= i < |order| :: order[i]) == (set i | 0 <= i < |front| :: front[i]) + {order[|order| - 1]};
    }
  }

  /** So many cycles took the boards to a state in which none is a candidate. */
  ghost predicate Emptied(e: Engine, boards: map<nat, Board>, after: map<nat, Board>, cycles: nat, limit: int,
                          minUpdates: int, minBytes: int) {
    && CompactedTo(e, boards, after) && Candidates(after, minUpdates, minBytes) == {}
    && cycles == CyclesFor(|Candidates(boards, minUpdates, minBytes)|, ClampBatch(limit))
  }

  /** With commits and activations paused and newest documents that load again, the compaction
      cycle empties the candidate list: n candidates take exactly n over the batch limit cycles,
      rounded up, whatever the query's order. */
  lemma {:induction false} CyclesEmptyList(e: Engine, boards: map<nat, Board>, query: set<nat> -> seq<nat>, limit: int,
                                           c: nat, minUpdates: int, minBytes: int)
    returns (after: map<nat, Board>, cycles: nat)
    requires FleetOk(e, boards) && Lists(query, ClampBatch(limit))
    ensures Emptied(e, boards, after, cycles, limit, minUpdates, minBytes)
    decreases |Candidates(boards, minUpdates, minBytes)|
  {
    if |Candidates(boards, minUpdates, minBytes)| == 0 {
      after, cycles := boards, 0;
      Untouched(e, boards);
    } else {
      var next := OneCycle(e, boards, query, limit, c, minUpdates, minBytes);
      var rest;
      after, rest := CyclesEmptyList(e, next, query, limit, c, minUpdates, minBytes);
      cycles := rest + 1;
      OneMoreCycle(e, boards, next, after, rest, limit, minUpdates, minBytes);
    }
  }

  lemma OneMoreCycle(e: Engine, boards: map<nat, Board>, next: map<nat, Board>, after: map<nat, Board>, rest: nat, limit: int,
                     minUpdates: int, minBytes: int)
    requires CompactedTo(e, boards, next) && Emptied(e, next, after, rest, limit, minUpdates, minBytes)
    requires var n := |Candidates(boards, minUpdates, minBytes)|;
             0 < n && |Candidates(next, minUpdates, minBytes)| == if n <= ClampBatch(limit) then 0 else n - ClampBatch(limit)
    ensures Emptied(e, boards, after, rest + 1, limit, minUpdates, minBytes)
  {
    CompactedTransitive(e, boards, next, after);
  }

  lemma OneCycle(e: Engine, boards: map<nat, Board>, query: set<nat> -> seq<nat>, limit: int,
                 c: nat, minUpdates: int, minBytes: int) returns (next: map<nat, Board>)
    requires FleetOk(e, boards) && Lists(query, ClampBatch(limit))
    ensures FleetOk(e, next) && CompactedTo(e, boards, next)
    ensures var n := |Candidates(boards, minUpdates, minBytes)|;
            |Candidates(next, minUpdates, minBytes)| == if n <= ClampBatch(limit) then 0 else n - ClampBatch(limit)
  {
    var all := Candidates(boards, minUpdates, minBytes);
    var listed := ListedBy(query, ClampBatch(limit), all);
    next := CycleTakesListed(e, boards, query(all), listed, c, minUpdates, minBytes);
    SizeWithout(all, listed);
  }

  lemma ListedBy(query: set<nat> -> seq<nat>, limit: nat, all: set<nat>) returns (listed: set<nat>)
    requires Lists(query, limit)
    ensures Enumerates(query(all), listed) && listed <= all && |listed| == if |all| <= limit then |all| else limit
  {
    listed := set i | 0 <= i < |query(all)| :: query(all)[i];
    DistinctSize(query(all));
  }

  /** How many batches of at most `limit` it takes to get through n. */
  function CyclesFor(n: nat, limit: nat): nat
    requires 1 <= limit
  {
    if n == 0 then 0 else 1 + CyclesFor(if n <= limit then 0 else n - limit, limit)
  }

  /** That is n over the limit, rounded up. */
  lemma {:induction false} CyclesForRoundsUp(n: nat, limit: nat)
    requires 1 <= limit
    ensures n <= CyclesFor(n, limit) * limit && (0 < n ==> (CyclesFor(n, limit) - 1) * limit < n)
  {
    if limit < n {
      var rest := CyclesFor(n - limit, limit);
      CyclesForRoundsUp(n - limit, limit);
      assert (rest + 1) * limit == rest * limit + limit && (rest - 1) * limit == rest * limit - limit;
    } else if 0 < n {
      assert CyclesFor(0, limit) == 0;
    }
  }

  lemma SizeWithout(all: set<nat>, listed: set<nat>)
    requires listed <= all
    ensures |all - listed| == |all| - |listed|
  {
    assert all == (all - listed) + listed;
  }

  lemma CompactedTransitive(e: Engine, boards: map<nat, Board>, next: map<nat, Board>, after: map<nat, Board>)
    requires CompactedTo(e, boards, next) && CompactedTo(e, next, after)
    ensures CompactedTo(e, boards, after)
  {
    forall i | i in boards
      ensures exists steps :: after[i].s == Run(e, boards[i].s, steps)
    {
      var first :| next[i].s == Run(e, boards[i].s, first);
      assert i in next;
      var more :| after[i].s == Run(e, next[i].s, more);
      RunAppend(e, boards[i].s, first, more);
      assert after[i].s == Run(e, boards[i].s, first + more);
    }
  }

  lemma Untouched(e: Engine, boards: map<nat, Board>)
    ensures CompactedTo(e, boards, boards)
  {
    forall i | i in boards
      ensures exists steps :: boards[i].s == Run(e, boards[i].s, steps)
    {
      assert Run(e, boards[i].s, []) == boards[i].s;
    }
  }

  lemma RestOfOrder(order: seq<nat>, all: set<nat>)
    requires order != [] && Enumerates(order, all)
    ensures order[0] in all && Enumerates(order[1..], all - {order[0]})
  {
    forall x
      ensures x in all - {order[0]} <==> x in (set i | 0 <= i < |order[1..]| :: order[1..][i])
    {
      if x in all && x != order[0] {
        var i :| 0 <= i < |order| && order[i] == x;
        assert order[1..][i - 1] == x;
      }
    }
  }

  lemma ChainRuns(e: Engine, boards: map<nat, Board>, next: map<nat, Board>, after: map<nat, Board>, i: nat, steps: seq<Step>)
    requires i in boards && next == boards[i := Board(boards[i].base, Run(e, boards[i].s, steps))]
    requires next[i].s.history == boards[i].s.history && CompactedTo(e, next, after)
    ensures CompactedTo(e, boards, after)
  {
    forall k | k in boards
      ensures after[k].base == boards[k].base && after[k].s.history == boards[k].s.history
      ensures exists all :: after[k].s == Run(e, boards[k].s, all)
    {
      assert k in next;
      var more :| after[k].s == Run(e, next[k].s, more);
      if k == i {
        RunAppend(e, boards[k].s, steps, more);
        assert after[k].s == Run(e, boards[k].s, steps + more);
      }
    }
  }
}
