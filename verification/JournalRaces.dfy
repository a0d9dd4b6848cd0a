/** What a request that overlaps two publications can lose: exactly when its page is safe from
    retention, and a run in which a client ends with a document that was never the board's. */
module JournalRaces {
  import opened Wrappers
  import opened IntSets
  import opened Replay
  import opened CanonicalTables
  import opened JournalProtocol
  import opened JournalInvariant
  import opened JournalSteps
  import opened JournalCommit
  import opened JournalCompaction
  import opened JournalClients
  import opened JournalTheorems
  import opened JournalQuiescence

  // ---- the exact condition ----

  /** Only time passes and rows are pruned. */
  predicate Retention(steps: seq<Step>) {
    forall i | 0 <= i < |steps| :: steps[i].Tick? || steps[i].Prune?
  }

  /** The page client c would be served now lists every history row up to its next cursor. */
  ghost predicate PageComplete(b: Base, s: System, c: nat, limit: nat) {
    c in s.clients && s.clients[c].BaseChosen? &&
    var q := s.clients[c];
    var page := ServePage(s.t, b.generation, q.cursor, q.head, limit);
    page.rows == RowsOf(s.history, q.cursor, page.next)
  }

  /** What retention leaves alone. */
  ghost predicate OnlyRowsChanged(s: System, s': System) {
    && s' == s.(t := s'.t, clock := s'.clock)
    && s'.t == s.t.(updates := s'.t.updates, events := s'.t.events)
  }

  lemma RetentionStep(e: Engine, s: System, step: Step)
    requires step.Tick? || step.Prune?
    ensures OnlyRowsChanged(s, Do(e, s, step))
  {
  }

  lemma {:induction false} RetentionKeeps(e: Engine, s: System, steps: seq<Step>)
    requires Retention(steps)
    ensures OnlyRowsChanged(s, Run(e, s, steps))
  {
    if steps != [] {
      RetentionKeeps(e, s, steps[..|steps| - 1]);
      RetentionStep(e, Run(e, s, steps[..|steps| - 1]), steps[|steps| - 1]);
    }
  }

  lemma SameFloor(b: Base, s: System, s': System)
    requires OnlyRowsChanged(s, s')
    ensures Floor(s'.t, b) == Floor(s.t, b)
  {
    assert Checkpoints(s'.t, b) == Checkpoints(s.t, b);
  }

  /** Rows above the second-newest checkpoint survive, so the page is complete. */
  lemma SafePage(e: Engine, b: Base, s: System, c: nat, limit: nat)
    requires Reachable(e, b, s) && c in s.clients && s.clients[c].BaseChosen? && 1 <= limit
    requires forall k | k in s.history && s.clients[c].cursor < k <= s.clients[c].head :: Floor(s.t, b) < k
    ensures PageComplete(b, s, c, limit)
  {
    ReachableInv(e, b, s);
    var q := s.clients[c];
    assert ClientOk(e, b, s.t, s.history, q);
    assert Content(b, s.t, s.history);
    RowsFrame(Journal(s.t.updates, b.generation), s.history, q.cursor, q.head);
    PageOfRows(s.t, b.generation, s.history, q.cursor, q.head, limit);
  }

  /** The first history row of an interval. */
  lemma FirstRow(history: map<int, Bytes>, lo: int, hi: int, k: int) returns (first: int)
    requires k in history && lo < k <= hi
    ensures first in history && lo < first <= k && forall j | j in history && lo < j <= hi :: first <= j
  {
    RowsExact(history, lo, hi);
    var rows := RowsOf(history, lo, hi);
    assert Row(k, history[k]) in rows;
    first := rows[0].seqNo;
    forall j | j in history && lo < j <= hi
      ensures first <= j
    {
      assert Row(j, history[j]) in rows;
      var i :| 0 <= i < |rows| && rows[i] == Row(j, history[j]);
    }
  }

  /** A page cannot be complete without the first history row of its interval. */
  lemma PageNeedsFirst(b: Base, t: Tables, history: map<int, Bytes>, q: Client, limit: nat, first: int)
    requires q.BaseChosen? && b.baseSeq <= q.cursor && 1 <= limit
    requires first in history && q.cursor < first <= q.head && first !in t.updates
    requires forall j | j in history && q.cursor < j <= q.head :: first <= j
    requires forall k | k in t.updates && b.baseSeq < k :: k in history
    ensures var page := ServePage(t, b.generation, q.cursor, q.head, limit);
            page.rows != RowsOf(history, q.cursor, page.next)
  {
    var j := Journal(t.updates, b.generation);
    var page := ServePage(t, b.generation, q.cursor, q.head, limit);
    PageAdvances(t, b.generation, q.cursor, q.head, limit);
    RowsExact(j, q.cursor, page.next);
    RowsExact(history, q.cursor, page.next);
    if page.hasMore {
      LastIsNext(t, b.generation, q.cursor, q.head, limit);
    }
    assert first <= page.next;
    assert Row(first, history[first]) in RowsOf(history, q.cursor, page.next);
    assert Row(first, history[first]) !in page.rows;
  }

  lemma LastIsNext(t: Tables, generation: int, since: int, head: int, limit: nat)
    requires since <= head && 1 <= limit && ServePage(t, generation, since, head, limit).hasMore
    ensures ServePage(t, generation, since, head, limit).next in Journal(t.updates, generation)
  {
    RowsExact(Journal(t.updates, generation), since, head);
  }

  /** An old row at or below the barrier can be pruned next. */
  lemma PruneRow(e: Engine, b: Base, s: System, k: int) returns (steps: seq<Step>)
    requires s.t.base == Some(b) && Serving(s.t) && b.baseSeq < k <= Floor(s.t, b)
    requires k in s.t.updates ==> s.t.updates[k].generation == b.generation
    ensures Retention(steps) && k !in Run(e, s, steps).t.updates
  {
    var ready := if k in s.t.updates then s.t.updates[k].createdAt + 7 * DAY + 1 else s.clock;
    var dt: nat := if s.clock < ready then ready - s.clock else 0;
    var tick: seq<Step> := [Tick(dt)];
    steps := tick + [Prune(7, {k}, {})];
    assert tick[..|tick| - 1] == [] && steps[..|steps| - 1] == tick;
    assert Run(e, s, tick) == Do(e, Run(e, s, []), Tick(dt));
    RowPruned(e, b, s.(clock := s.clock + dt), k);
  }

  lemma RowPruned(e: Engine, b: Base, s: System, k: int)
    requires s.t.base == Some(b) && Serving(s.t) && b.baseSeq < k <= Floor(s.t, b)
    requires k in s.t.updates ==> s.t.updates[k].generation == b.generation && s.t.updates[k].createdAt + 7 * DAY < s.clock
    ensures k !in Do(e, s, Prune(7, {k}, {})).t.updates
  {
    assert Barrier(s.t) == Some(Floor(s.t, b));
    assert k in s.t.updates ==> k in UpdateVictims(s.t, s.clock, 7);
  }

  /** The page of a request, exactly: whatever retention runs before a serving board answers
      it, the page is complete, if and only if every history row of the request's interval lies
      above the second-newest checkpoint. Two publications since the head was read can put that
      checkpoint above the cursor; one cannot. */
  lemma {:induction false} PageSurvivesExactly(e: Engine, b: Base, s: System, c: nat, limit: nat)
    requires Reachable(e, b, s) && Serving(s.t)
    requires c in s.clients && s.clients[c].BaseChosen? && 1 <= limit
    ensures (forall steps | Retention(steps) :: PageComplete(b, Run(e, s, steps), c, limit))
            <==>
            (forall k | k in s.history && s.clients[c].cursor < k <= s.clients[c].head :: Floor(s.t, b) < k)
  {
    var q := s.clients[c];
    if forall k | k in s.history && q.cursor < k <= q.head :: Floor(s.t, b) < k {
      forall steps | Retention(steps)
        ensures PageComplete(b, Run(e, s, steps), c, limit)
      {
        RetentionKeeps(e, s, steps);
        SameFloor(b, s, Run(e, s, steps));
        ReachableRun(e, b, s, steps);
        SafePage(e, b, Run(e, s, steps), c, limit);
      }
    } else {
      var k :| k in s.history && q.cursor < k <= q.head && k <= Floor(s.t, b);
      var steps := UnsafePage(e, b, s, c, limit, k);
      assert !PageComplete(b, Run(e, s, steps), c, limit);
    }
  }

  lemma UnsafePage(e: Engine, b: Base, s: System, c: nat, limit: nat, k: int) returns (steps: seq<Step>)
    requires Reachable(e, b, s) && Serving(s.t) && c in s.clients && s.clients[c].BaseChosen? && 1 <= limit
    requires k in s.history && s.clients[c].cursor < k <= s.clients[c].head && k <= Floor(s.t, b)
    ensures Retention(steps) && !PageComplete(b, Run(e, s, steps), c, limit)
  {
    ReachableInv(e, b, s);
    var q := s.clients[c];
    assert ClientOk(e, b, s.t, s.history, q);
    var first := FirstRow(s.history, q.cursor, q.head, k);
    assert first in s.t.updates ==> s.t.updates[first].generation == b.generation;
    steps := PruneRow(e, b, s, first);
    RetentionKeeps(e, s, steps);
    var s' := Run(e, s, steps);
    ReachableRun(e, b, s, steps);
    ReachableInv(e, b, s');
    assert Content(b, s'.t, s'.history);
    PageNeedsFirst(b, s'.t, s'.history, q, limit, first);
  }

  // ---- a run ----

  /** Documents that remember every update applied to them. */
  ghost predicate Appends(e: Engine) {
    && (forall doc, y :: e.apply(doc, y) == Some(doc + y))
    && (forall doc :: e.reloads(doc))
  }

  const EmptyBase: Base := Base([], 0, 7, 1, false)

  const NewBoard: System := System(
    Tables(Some(EmptyBase), None, 1, map[], map[], map[], None, {}), 0, map[], map[], map[], map[], [], [])

  lemma Start(e: Engine)
    requires Appends(e)
    ensures Reachable(e, EmptyBase, NewBoard)
  {
    assert Checkpoints(NewBoard.t, EmptyBase) == {};
    assert Init(e, EmptyBase, NewBoard);
    assert Run(e, NewBoard, []) == NewBoard;
  }

  lemma Then(e: Engine, s: System, step: Step) returns (s': System)
    requires Appends(e)
    requires Reachable(e, EmptyBase, s)
    ensures Reachable(e, EmptyBase, s') && s' == Do(e, s, step)
  {
    var one: seq<Step> := [step];
    assert one[..|one| - 1] == [] && Run(e, s, []) == s;
    ReachableRun(e, EmptyBase, s, one);
    s' := Run(e, s, one);
  }

  /** No checkpoint means that reads start from the base. */
  lemma NoCheckpoint(e: Engine, t: Tables, through: int)
    requires Appends(e)
    requires t.snapshots == map[]
    ensures Checkpoints(t, EmptyBase) == {} && StartIntact(e, t, EmptyBase, through)
    ensures StartPoint(t, EmptyBase, through) == (0, [])
  {
    assert Checkpoints(t, EmptyBase) == {};
  }

  lemma Begun(s: System)
    requires s.t.base == Some(EmptyBase) && s.t.head == None && s.t.events == map[] && s.owners == map[]
    ensures DoActivateBegin(s, 0, false)
            == s.(t := s.t.(head := Some(Head(0, 1, 1, Activating))), owners := map[0 := Loading(1, 0, false)])
  {
  }

  lemma Selected(e: Engine, s: System)
    requires Appends(e)
    requires s.t.base == Some(EmptyBase) && s.t.snapshots == map[] && s.owners == map[0 := Loading(1, 0, false)]
    ensures DoActivateSelect(e, s, 0) == s.(owners := map[0 := Replaying(1, 0, false, 0, [], 0, [])])
  {
    NoCheckpoint(e, s.t, 0);
  }

  lemma Finished(s: System)
    requires s.t.head == Some(Head(0, 1, 1, Activating)) && s.owners == map[0 := Replaying(1, 0, false, 0, [], 0, [])]
    ensures DoActivateFinish(s, 0)
            == s.(t := s.t.(head := Some(Head(0, 1, 1, Ready))), owners := map[0 := Resident(1, [], 0)], readied := s.readied + [1])
  {
  }

  /** The board is activated: an owner holds the empty document. */
  lemma Activated(e: Engine) returns (s: System)
    requires Appends(e)
    ensures Reachable(e, EmptyBase, s)
    ensures s.t == NewBoard.t.(head := Some(Head(0, 1, 1, Ready))) && s.owners == map[0 := Resident(1, [], 0)]
    ensures s.clients == map[] && s.history == map[] && s.clock == 0
  {
    var b := Loaded(e);
    Finished(b);
    s := Then(e, b, ActivateFinish(0));
  }

  lemma Loaded(e: Engine) returns (s: System)
    requires Appends(e)
    ensures Reachable(e, EmptyBase, s)
    ensures s.t == NewBoard.t.(head := Some(Head(0, 1, 1, Activating))) && s.owners == map[0 := Replaying(1, 0, false, 0, [], 0, [])]
    ensures s.clients == map[] && s.history == map[] && s.clock == 0
  {
    Start(e);
    Begun(NewBoard);
    var a := Then(e, NewBoard, ActivateBegin(0, false));
    Selected(e, a);
    s := Then(e, a, ActivateSelect(0));
  }

  lemma Bootstrapped(e: Engine, s: System)
    requires Appends(e)
    requires s.t.base == Some(EmptyBase) && s.t.snapshots == map[] && s.clients == map[]
    requires s.t.head.Some? && 0 <= s.t.head.value.processedSeq
    ensures DoBootstrap(e, s, 5, 0) == s.(clients := map[5 := Holding([], 0, true)])
  {
    NoCheckpoint(e, s.t, 0);
  }

  lemma FreshCommitPasses(t: Tables, c: Submission)
    requires t.head == Some(Head(c.expectedSeq, c.generation, c.epoch, Ready))
    requires t.nextEventSeq !in t.events && t.nextEventSeq !in t.updates
    requires !EventIdUsed(t, c.eventId) && !ClientEventIdUsed(t, c.clientEventId)
    ensures CommitTx(t, c).Success? && Committed(t, CommitTx(t, c).value.0, CommitTx(t, c).value.1, c)
  {
    assert !EventIdUsed(t.(nextEventSeq := t.nextEventSeq + 1), c.eventId);
    CommitTxEffect(t, c);
  }

  /** The owner's next commit is accepted. */
  lemma Accepted(e: Engine, s: System, doc: Bytes, seqNo: int, y: Bytes, cid: string, id: nat) returns (s': System)
    requires Appends(e)
    requires s.t.base == Some(EmptyBase) && s.t.head == Some(Head(seqNo - 1, 1, 1, Ready)) && s.t.nextEventSeq == seqNo
    requires s.owners == map[0 := Resident(1, doc, seqNo - 1)] && seqNo !in s.t.events && seqNo !in s.t.updates
    requires !EventIdUsed(s.t, id) && !ClientEventIdUsed(s.t, cid)
    ensures s' == DoCommit(e, s, 0, y, cid, id)
    ensures s'.t == s.t.(nextEventSeq := seqNo + 1, head := Some(Head(seqNo, 1, 1, Ready)),
                         events := s.t.events[seqNo := EventRow(id, s.clock)],
                         updates := s.t.updates[seqNo := UpdateRow(Some(id), cid, 1, y, s.clock)],
                         assetHead := s'.t.assetHead, assetRefs := s'.t.assetRefs)
    ensures s'.history == s.history[seqNo := y] && s'.owners == map[0 := Resident(1, doc + y, seqNo)]
    ensures s'.clients == s.clients && s'.clock == s.clock
  {
    s' := DoCommit(e, s, 0, y, cid, id);
    var c := Submission(1, seqNo - 1, 1, id, cid, y, e.project(doc + y), s.clock);
    FreshCommitPasses(s.t, c);
    CommitOutcome(e, s, doc, seqNo, c);
  }

  lemma CommitOutcome(e: Engine, s: System, doc: Bytes, seqNo: int, c: Submission)
    requires Appends(e) && s.t.base == Some(EmptyBase) && s.owners == map[0 := Resident(1, doc, seqNo - 1)]
    requires c == Submission(1, seqNo - 1, 1, c.eventId, c.clientEventId, c.yupdate, e.project(doc + c.yupdate), s.clock)
    requires CommitTx(s.t, c).Success? && CommitTx(s.t, c).value.1 == seqNo
    ensures DoCommit(e, s, 0, c.yupdate, c.clientEventId, c.eventId)
            == s.(t := CommitTx(s.t, c).value.0, history := s.history[seqNo := c.yupdate],
                  owners := map[0 := Resident(1, doc + c.yupdate, seqNo)], advances := s.advances + [Advance(1, seqNo - 1, seqNo)])
  {
    assert e.apply(doc, c.yupdate) == Some(doc + c.yupdate);
  }

  lemma HeadTaken(s: System)
    requires Serving(s.t) && s.t.base == Some(EmptyBase) && s.t.snapshots == map[]
    requires s.t.head.value.processedSeq == 1 && s.clients == map[5 := Holding([], 0, true)]
    ensures DoReadHead(s, 5) == s.(clients := map[5 := HeadRead([], 0, true, 1, {})])
  {
    assert Checkpoints(s.t, EmptyBase) == {};
  }

  lemma BaseTaken(e: Engine, s: System)
    requires Appends(e)
    requires s.t.base == Some(EmptyBase) && s.t.snapshots == map[] && s.clients == map[5 := HeadRead([], 0, true, 1, {})]
    ensures DoChooseBase(e, s, 5, None) == s.(clients := map[5 := BaseChosen([], 0, true, 1, {})])
  {
    NoCheckpoint(e, s.t, 1);
  }

  /** One client has bootstrapped. */
  lemma ClientHolds(e: Engine) returns (s: System)
    requires Appends(e)
    ensures Reachable(e, EmptyBase, s)
    ensures s.t == NewBoard.t.(head := Some(Head(0, 1, 1, Ready))) && s.owners == map[0 := Resident(1, [], 0)]
    ensures s.clients == map[5 := Holding([], 0, true)] && s.history == map[] && s.clock == 0
  {
    var a := Activated(e);
    Bootstrapped(e, a);
    s := Then(e, a, Bootstrap(5, 0));
  }

  /** The tables and history after the first commit, nothing published. */
  ghost predicate OneCommitted(s: System) {
    && s.t.base == Some(EmptyBase) && s.t.head == Some(Head(1, 1, 1, Ready)) && s.t.nextEventSeq == 2
    && s.history == map[1 := [1]] && s.owners == map[0 := Resident(1, [1], 1)] && s.clock == 0
    && s.t.updates == map[1 := UpdateRow(Some(1), "a", 1, [1], 0)] && s.t.events == map[1 := EventRow(1, 0)]
  }

  lemma FirstCommit(e: Engine) returns (s: System)
    requires Appends(e)
    ensures Reachable(e, EmptyBase, s) && OneCommitted(s)
    ensures s.t.snapshots == map[] && s.clients == map[5 := Holding([], 0, true)]
  {
    var a := ClientHolds(e);
    s := Accepted(e, a, [], 1, [1], "a", 1);
    var s' := Then(e, a, Commit(0, [1], "a", 1));
    assert [] + [1 as byte] == [1];
  }

  /** A request has chosen its base at head 1. */
  lemma RequestUnderWay(e: Engine) returns (s: System)
    requires Appends(e)
    ensures Reachable(e, EmptyBase, s) && OneCommitted(s)
    ensures s.t.snapshots == map[] && s.clients == map[5 := BaseChosen([], 0, true, 1, {})]
  {
    var d := HeadIsRead(e);
    BaseTaken(e, d);
    s := Then(e, d, ChooseBase(5, None));
  }

  lemma HeadIsRead(e: Engine) returns (s: System)
    requires Appends(e)
    ensures Reachable(e, EmptyBase, s) && OneCommitted(s)
    ensures s.t.snapshots == map[] && s.clients == map[5 := HeadRead([], 0, true, 1, {})]
  {
    var c := FirstCommit(e);
    HeadTaken(c);
    s := Then(e, c, ReadHead(5));
  }

  /** A compaction of the current revision, from listing to publication. */
  lemma Compaction(e: Engine, s: System) returns (s': System)
    requires Appends(e)
    requires Reachable(e, EmptyBase, s) && Serving(s.t) && !Settled(EmptyBase, s)
    ensures Reachable(e, EmptyBase, s') && Published(EmptyBase, s, s')
  {
    ReachableInv(e, EmptyBase, s);
    UnsettledIsCandidate(e, EmptyBase, s, 1, 1);
    var pages := OneRoundSettles(e, EmptyBase, s, 3, 1, 1);
    var steps := Round(3, 1, 1, pages);
    ReachableRun(e, EmptyBase, s, steps);
    s' := Run(e, s, steps);
  }

  lemma NewestIs(s: System, k: int)
    requires k in s.history && forall j | j in s.history :: j <= k
    ensures Watermark(EmptyBase, s.history) == k
  {
    MaxIs(s.history.Keys, k);
  }

  lemma FirstPublished(e: Engine) returns (s: System)
    requires Appends(e)
    ensures Reachable(e, EmptyBase, s) && OneCommitted(s)
    ensures Checkpoints(s.t, EmptyBase) == {1} && s.clients == map[5 := BaseChosen([], 0, true, 1, {})]
  {
    var a := RequestUnderWay(e);
    assert Checkpoints(a.t, EmptyBase) == {};
    NewestIs(a, 1);
    s := Compaction(e, a);
  }

  lemma SecondCommit(e: Engine) returns (s: System)
    requires Appends(e)
    ensures Reachable(e, EmptyBase, s) && Serving(s.t) && s.clock == 0
    ensures s.t.base == Some(EmptyBase) && Checkpoints(s.t, EmptyBase) == {1}
    ensures s.clients == map[5 := BaseChosen([], 0, true, 1, {})] && s.history == map[1 := [1], 2 := [2]]
    ensures 1 in s.t.updates && s.t.updates[1] == UpdateRow(Some(1), "a", 1, [1], 0)
  {
    var b := FirstPublished(e);
    DifferentIds(b.t);
    s := Accepted(e, b, [1], 2, [2], "b", 2);
    var s' := Then(e, b, Commit(0, [2], "b", 2));
    assert Checkpoints(s.t, EmptyBase) == Checkpoints(b.t, EmptyBase);
  }

  /** Two publications happen before the request reads its rows. */
  lemma TwicePublished(e: Engine) returns (s: System)
    requires Appends(e)
    ensures Reachable(e, EmptyBase, s) && Serving(s.t) && s.clock == 0
    ensures s.t.base == Some(EmptyBase) && Checkpoints(s.t, EmptyBase) == {1, 2}
    ensures s.clients == map[5 := BaseChosen([], 0, true, 1, {})] && s.history == map[1 := [1], 2 := [2]]
    ensures 1 in s.t.updates && s.t.updates[1] == UpdateRow(Some(1), "a", 1, [1], 0)
  {
    var c := SecondCommit(e);
    NewestIs(c, 2);
    s := Compaction(e, c);
    assert {1} + {2} == {1, 2};
  }

  lemma DifferentIds(t: Tables)
    requires t.updates == map[1 := UpdateRow(Some(1), "a", 1, [1], 0)] && t.events == map[1 := EventRow(1, 0)]
    ensures !EventIdUsed(t, 2) && !ClientEventIdUsed(t, "b")
  {
    assert "a"[0] != "b"[0];
  }

  lemma FloorOfTwo(t: Tables)
    requires Checkpoints(t, EmptyBase) == {1, 2}
    ensures Floor(t, EmptyBase) == 1
  {
    MaxIs({1, 2}, 2);
    assert |{1, 2}| == 2;
  }

  /** A client whose request overlapped two publications can end with a document that was never
      the board's: it is answered, not sent back to bootstrap, and the update it misses lies
      below its new cursor, so no later page brings it. */
  lemma {:induction false} TwoPublicationsLoseAnUpdate(e: Engine) returns (s: System)
    requires Appends(e)
    ensures Reachable(e, EmptyBase, s)
    ensures s.clients == map[5 := Holding([], 1, false)] && s.history.Keys == {1, 2}
    ensures forall k: int | 1 <= k :: DocAt(e, EmptyBase, s.history, k) != Some([])
  {
    s := Answered(e);
    LostDocument(e, s.history);
  }

  lemma Answered(e: Engine) returns (s: System)
    requires Appends(e)
    ensures Reachable(e, EmptyBase, s)
    ensures s.clients == map[5 := Holding([], 1, false)] && s.history == map[1 := [1], 2 := [2]]
  {
    var c := RowGone(e);
    s := Next(e, c, ReadPage(5, None), c.(clients := map[5 := Holding([], 1, false)])) by {
      PageIsEmpty(e, c);
    }
  }

  lemma Next(e: Engine, s: System, step: Step, next: System) returns (s': System)
    requires Appends(e)
    requires Reachable(e, EmptyBase, s) && next == Do(e, s, step)
    ensures Reachable(e, EmptyBase, s') && s' == next
  {
    s' := Then(e, s, step);
  }

  /** Then the first update grows old and is pruned. */
  lemma RowGone(e: Engine) returns (s: System)
    requires Appends(e)
    ensures Reachable(e, EmptyBase, s)
    ensures s.t.base == Some(EmptyBase) && Checkpoints(s.t, EmptyBase) == {1, 2} && 1 !in s.t.updates
    ensures s.clients == map[5 := BaseChosen([], 0, true, 1, {})] && s.history == map[1 := [1], 2 := [2]]
  {
    var a := TwicePublished(e);
    FloorOfTwo(a.t);
    var b := Then(e, a, Tick(8 * DAY));
    RetentionStep(e, a, Tick(8 * DAY));
    SameFloor(EmptyBase, a, b);
    RowPruned(e, EmptyBase, b, 1);
    s := Then(e, b, Prune(7, {1}, {}));
    RetentionStep(e, b, Prune(7, {1}, {}));
    assert Checkpoints(s.t, EmptyBase) == Checkpoints(a.t, EmptyBase);
  }

  /** The answer to the request has no row and ends at its head. */
  lemma PageIsEmpty(e: Engine, s: System)
    requires Appends(e)
    requires s.t.base == Some(EmptyBase) && Checkpoints(s.t, EmptyBase) == {1, 2} && 1 !in s.t.updates
    requires s.clients == map[5 := BaseChosen([], 0, true, 1, {})]
    ensures Do(e, s, ReadPage(5, None)) == s.(clients := map[5 := Holding([], 1, false)])
  {
    var j := Journal(s.t.updates, 1);
    assert 1 !in j;
    assert RowsOf(j, 0, 0) == [] && RowsOf(j, 0, 1) == [];
    assert {1, 2} - {} == {1, 2} && |{1, 2}| == 2;
    assert !AtMostOneNew(s, {});
  }

  lemma LostDocument(e: Engine, history: map<int, Bytes>)
    requires Appends(e)
    requires history == map[1 := [1], 2 := [2]]
    ensures forall k: int | 1 <= k :: DocAt(e, EmptyBase, history, k) != Some([])
  {
    forall k: int | 1 <= k
      ensures DocAt(e, EmptyBase, history, k) != Some([])
    {
      LongerDocument(e, history, k);
    }
  }

  lemma {:induction false} LongerDocument(e: Engine, history: map<int, Bytes>, k: int)
    requires Appends(e)
    requires history == map[1 := [1], 2 := [2]] && 1 <= k
    ensures var doc := Fold(e, Some([]), history, 0, k); doc.Some? && 1 <= |doc.value|
    decreases k
  {
    if k > 1 {
      LongerDocument(e, history, k - 1);
    } else {
      assert Fold(e, Some([]), history, 0, 0) == Some([]);
    }
  }
}
