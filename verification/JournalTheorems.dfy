/** What the journal protocol guarantees, for every run from every initial board. */
module JournalTheorems {
  import opened Wrappers
  import opened IntSets
  import opened Replay
  import opened CanonicalTables
  import opened JournalProtocol
  import opened JournalInvariant
  import opened JournalSteps
  import opened JournalCommit
  import opened JournalCompaction
  import opened JournalClients

  // ---- recoverability ----

  /** The document a reader rebuilds from a checkpoint and the surviving journal tail. */
  function Rebuilt(e: Engine, t: Tables, generation: int, start: int, doc: Bytes, through: int): Option<Bytes> {
    ReplayRows(e, Some(doc), RowsOf(Journal(t.updates, generation), start, through))
  }

  /** The document of the full, never-pruned history. */
  function FullReplay(e: Engine, b: Base, s: System): Option<Bytes> {
    ReplayRows(e, Some(b.stateUpdate), RowsOf(s.history, b.baseSeq, s.t.nextEventSeq))
  }

  lemma FullReplayIsNewest(e: Engine, b: Base, s: System)
    requires TablesOk(e, b, s.t, s.history)
    ensures FullReplay(e, b, s) == DocAt(e, b, s.history, Watermark(b, s.history))
  {
    var w := Watermark(b, s.history);
    WatermarkBounds(b, s.t, s.history);
    ReplayIsFold(e, Some(b.stateUpdate), s.history, b.baseSeq, s.t.nextEventSeq);
    DocSplit(e, b, s.history, w, s.t.nextEventSeq);
    FoldGap(e, DocAt(e, b, s.history, w), s.history, w, s.t.nextEventSeq);
  }

  lemma TailRebuilds(e: Engine, b: Base, t: Tables, history: map<int, Bytes>, start: int, doc: Bytes, through: int)
    requires TablesOk(e, b, t, history)
    requires Floor(t, b) <= start <= through && Some(doc) == DocAt(e, b, history, start)
    ensures Rebuilt(e, t, b.generation, start, doc, through) == DocAt(e, b, history, through)
  {
    SurvivesAbove(e, b, t, history, start, through);
    FloorAboveBase(e, b, t, history);
    RowsFrame(Journal(t.updates, b.generation), history, start, through);
    ReplayIsFold(e, Some(doc), history, start, through);
    DocSplit(e, b, history, start, through);
  }

  /** However commits, takeovers, compactions and prunes interleave, a ready board rebuilds to
      its full history: from the checkpoint the readers select, or the base if there is none,
      and as well from the second-newest checkpoint. */
  lemma {:induction false} Recoverability(e: Engine, b: Base, s: System)
    requires Reachable(e, b, s)
    requires s.t.head.Some? && s.t.head.value.state == Ready
    ensures var (start, doc) := StartPoint(s.t, b, s.t.head.value.processedSeq);
            && FullReplay(e, b, s).Some?
            && Rebuilt(e, s.t, b.generation, start, doc, s.t.head.value.processedSeq) == FullReplay(e, b, s)
    ensures |Checkpoints(s.t, b)| >= 2 ==>
              var second := SecondOf(Checkpoints(s.t, b));
              && SnapshotKey(b.clientId, b.generation, second) in s.t.snapshots
              && Rebuilt(e, s.t, b.generation, second,
                         s.t.snapshots[SnapshotKey(b.clientId, b.generation, second)].stateUpdate,
                         s.t.head.value.processedSeq) == FullReplay(e, b, s)
  {
    ReachableInv(e, b, s);
    var p := s.t.head.value.processedSeq;
    FullReplayIsNewest(e, b, s);
    FloorAboveBase(e, b, s.t, s.history);
    StartIsDoc(e, b, s.t, s.history, p);
    WatermarkBounds(b, s.t, s.history);
    var (start, doc) := StartPoint(s.t, b, p);
    TailRebuilds(e, b, s.t, s.history, start, doc, p);
    if |Checkpoints(s.t, b)| >= 2 {
      var second := SecondOf(Checkpoints(s.t, b));
      CheckpointKey(s.t, b, second);
      TailRebuilds(e, b, s.t, s.history, second, s.t.snapshots[SnapshotKey(b.clientId, b.generation, second)].stateUpdate, p);
    }
  }

  /** The history the theorems speak of is never pruned: a step only adds to it, and only by
      a commit that the tables accepted. */
  lemma HistoryOnlyGrows(e: Engine, b: Base, s: System, step: Step)
    requires Bounds(b, s.t, s.history)
    ensures var s' := Do(e, s, step);
            s'.history == s.history ||
            (step.Commit? && s.t.nextEventSeq !in s.history && s'.history == s.history[s.t.nextEventSeq := step.yupdate]
             && s.t.nextEventSeq in s'.t.updates && s.t.nextEventSeq in s'.t.events)
  {
    if step.Commit? {
      CommitHistory(e, s, step.owner, step.yupdate, step.clientEventId, step.eventId);
    } else {
      OtherStepsKeepHistory(e, s, step);
    }
  }

  /** Steps that write no table. */
  predicate ReadOnly(step: Step) {
    step.Tick? || step.ActivateSelect? || step.ActivateBatch? || step.ActivateReplay? || step.Evict?
    || step.CompactChoose? || step.CompactVerify? || step.CompactStart? || step.CompactPage?
    || step.Bootstrap? || step.ReadHead? || step.ChooseBase? || step.ReadPage?
  }

  lemma ReadOnlyWritesNothing(e: Engine, s: System, step: Step)
    requires ReadOnly(step)
    ensures Do(e, s, step).t == s.t && Do(e, s, step).history == s.history
  {
    if step.CompactChoose? || step.CompactVerify? || step.CompactStart? || step.CompactPage? {
      CompactorReads(e, s, step);
    } else if step.Bootstrap? || step.ReadHead? || step.ChooseBase? || step.ReadPage? {
      ClientReads(e, s, step);
    }
  }

  lemma CompactorReads(e: Engine, s: System, step: Step)
    requires step.CompactChoose? || step.CompactVerify? || step.CompactStart? || step.CompactPage?
    ensures Do(e, s, step).t == s.t && Do(e, s, step).history == s.history
  {
  }

  lemma ClientReads(e: Engine, s: System, step: Step)
    requires step.Bootstrap? || step.ReadHead? || step.ChooseBase? || step.ReadPage?
    ensures Do(e, s, step).t == s.t && Do(e, s, step).history == s.history
  {
  }

  lemma OtherStepsKeepHistory(e: Engine, s: System, step: Step)
    requires !step.Commit?
    ensures Do(e, s, step).history == s.history
  {
    if ReadOnly(step) {
      ReadOnlyWritesNothing(e, s, step);
    }
  }

  lemma CommitHistory(e: Engine, s: System, o: nat, y: Bytes, cid: string, id: nat)
    ensures var s' := DoCommit(e, s, o, y, cid, id);
            (s'.history == s.history && s'.advances == s.advances && s'.t == s.t) ||
            (s'.history == s.history[s.t.nextEventSeq := y]
             && s.t.nextEventSeq in s'.t.updates && s.t.nextEventSeq in s'.t.events
             && s.t.head.Some? && s'.t.head == Some(s.t.head.value.(processedSeq := s.t.nextEventSeq))
             && s'.advances == s.advances + [Advance(s.t.head.value.epoch, s.t.head.value.processedSeq, s.t.nextEventSeq)])
  {
    if o in s.owners && s.owners[o].Resident? && s.t.base.Some? && e.apply(s.owners[o].doc, y).Some? {
      var r := s.owners[o];
      var d := e.apply(r.doc, y).value;
      var c := Submission(r.epoch, r.cursor, s.t.base.value.generation, id, cid, y, e.project(d), s.clock);
      if CommitTx(s.t, c).Success? {
        CommitTxEffect(s.t, c);
      }
    }
  }

  // ---- catch-up ----

  /** Over every run, a client that was never told to rebootstrap and whose requests each saw
      at most one new checkpoint holds exactly the history up to its cursor. */
  lemma {:induction false} CatchUpSafety(e: Engine, b: Base, s: System, c: nat)
    requires Reachable(e, b, s)
    requires c in s.clients && !s.clients[c].RebootstrapRequired? && s.clients[c].clean
    ensures && s.clients[c].cursor <= Watermark(b, s.history)
            && ReplayRows(e, Some(b.stateUpdate), RowsOf(s.history, b.baseSeq, s.clients[c].cursor)) == Some(s.clients[c].doc)
  {
    ReachableInv(e, b, s);
    assert ClientOk(e, b, s.t, s.history, s.clients[c]);
    ReplayIsFold(e, Some(b.stateUpdate), s.history, b.baseSeq, s.clients[c].cursor);
  }

  /** A request whose three queries are not interleaved with a publication stays clean: it
      either ends in REBOOTSTRAP_REQUIRED or moves the client along the history. */
  lemma {:induction false} AtomicRequestIsExact(e: Engine, b: Base, s: System, c: nat, generation: Option<int>, limit: Option<int>)
    requires Reachable(e, b, s) && Serving(s.t)
    requires c in s.clients && s.clients[c].Holding? && s.clients[c].clean
    ensures var s' := DoReadPage(e, DoChooseBase(e, DoReadHead(s, c), c, generation), c, limit);
            && c in s'.clients
            && (s'.clients[c].RebootstrapRequired?
                || (s'.clients[c].Holding? && s'.clients[c].clean
                    && s.clients[c].cursor <= s'.clients[c].cursor
                    && Some(s'.clients[c].doc) == DocAt(e, b, s.history, s'.clients[c].cursor)))
  {
    ReachableInv(e, b, s);
    var h := s.clients[c];
    var p := s.t.head.value.processedSeq;
    assert ClientOk(e, b, s.t, s.history, h);
    var q := BaseChosen(h.doc, h.cursor, h.clean, p, Checkpoints(s.t, b));
    StartIsDoc(e, b, s.t, s.history, p);
    AtomicFence(e, b, s, c, generation, q);
    if StartPoint(s.t, b, p).0 <= h.cursor <= p {
      FencedClientOk(e, b, s.t, s.history, HeadRead(h.doc, h.cursor, h.clean, p, Checkpoints(s.t, b)));
      AtomicPage(e, b, s.t, s.history, q, PageLimit(limit));
      var s2 := DoChooseBase(e, DoReadHead(s, c), c, generation);
      if s2.clients[c] == q {
        assert AtMostOneNew(s2, q.known);
        assert DoReadPage(e, s2, c, limit).clients[c] == Received(e, s.t, b.generation, q, PageLimit(limit), true);
      }
    }
  }

  /** Head read and base selection without a step between them. */
  lemma AtomicFence(e: Engine, b: Base, s: System, c: nat, generation: Option<int>, q: Client)
    requires s.t.base == Some(b) && Serving(s.t) && c in s.clients && s.clients[c].Holding?
    requires StartIntact(e, s.t, b, s.t.head.value.processedSeq)
    requires q == BaseChosen(s.clients[c].doc, s.clients[c].cursor, s.clients[c].clean,
                             s.t.head.value.processedSeq, Checkpoints(s.t, b))
    ensures var s' := DoChooseBase(e, DoReadHead(s, c), c, generation);
            && c in s'.clients && s'.t == s.t
            && (s'.clients[c] == RebootstrapRequired
                || (s'.clients[c] == q && StartPoint(s.t, b, q.head).0 <= q.cursor <= q.head))
  {
  }

  lemma AtomicPage(e: Engine, b: Base, t: Tables, history: map<int, Bytes>, q: Client, limit: nat)
    requires TablesOk(e, b, t, history) && ClientOk(e, b, t, history, q) && q.BaseChosen? && 1 <= limit
    requires q.clean && q.known == Checkpoints(t, b)
    ensures |Checkpoints(t, b) - q.known| <= 1
    ensures var q' := Received(e, t, b.generation, q, limit, true);
            q'.RebootstrapRequired?
            || (q'.Holding? && q'.clean && q.cursor <= q'.cursor && Some(q'.doc) == DocAt(e, b, history, q'.cursor))
  {
    assert Checkpoints(t, b) - q.known == {};
    ServedPageBounds(t, b.generation, q.cursor, q.head, limit);
    PagedClientOk(e, b, t, history, q, limit, true);
  }

  /** All the rows a client receives that keeps asking for the next page of one head. */
  function Paged(t: Tables, generation: int, since: int, head: int, limit: nat): (rows: seq<Row>)
    requires since <= head && 1 <= limit
    decreases head - since
  {
    var page := ServePage(t, generation, since, head, limit);
    PageAdvances(t, generation, since, head, limit);
    if page.hasMore then page.rows + Paged(t, generation, page.next, head, limit) else page.rows
  }

  /** Every page that announces more strictly raises the cursor and is the journal between
      the two cursors. */
  lemma PageAdvances(t: Tables, generation: int, since: int, head: int, limit: nat)
    requires since <= head && 1 <= limit
    ensures var page := ServePage(t, generation, since, head, limit);
            && page.rows == RowsOf(Journal(t.updates, generation), since, page.next)
            && since <= page.next <= head && |page.rows| <= limit
            && (page.hasMore ==> since < page.next) && (!page.hasMore ==> page.next == head)
  {
    PageOfRows(t, generation, Journal(t.updates, generation), since, head, limit);
  }

  /** Against a fixed head paging terminates, and whatever the page limit the pages add up to
      the one unlimited answer. */
  lemma {:induction false} PagingIsOneQuery(t: Tables, generation: int, since: int, head: int, limit: nat)
    requires since <= head && 1 <= limit
    ensures Paged(t, generation, since, head, limit) == RowsOf(Journal(t.updates, generation), since, head)
    decreases head - since
  {
    var page := ServePage(t, generation, since, head, limit);
    PageAdvances(t, generation, since, head, limit);
    if page.hasMore {
      PagingIsOneQuery(t, generation, page.next, head, limit);
      RowsSplit(Journal(t.updates, generation), since, page.next, head);
    }
  }

  /** Why the barrier is the second-newest checkpoint. After base selection, whatever runs of
      prunes, commits and at most one publication happened, the page lacks no history row of
      `(cursor, head]` that its limit lets it carry. */
  lemma {:induction false} OnePublicationLosesNothing(e: Engine, b: Base, s: System, c: nat, limit: nat)
    requires Reachable(e, b, s) && 1 <= limit
    requires c in s.clients && s.clients[c].BaseChosen? && s.t.base.Some? && AtMostOneNew(s, s.clients[c].known)
    ensures var page := ServePage(s.t, b.generation, s.clients[c].cursor, s.clients[c].head, limit);
            && page.rows == RowsOf(s.history, s.clients[c].cursor, page.next)
            && (page.hasMore ==> s.clients[c].cursor < page.next)
            && (!page.hasMore ==> page.next == s.clients[c].head)
  {
    ReachableInv(e, b, s);
    var q := s.clients[c];
    assert ClientOk(e, b, s.t, s.history, q);
    FenceStillHolds(s.t, b, q.known, q.cursor);
    ServedPageExact(e, b, s.t, s.history, q.cursor, q.head, limit);
  }

  /** Exactly when an interval is safe from retention: a board that is serving can have every
      future prune leave `(since, head]` intact if and only if no history row of the interval
      lies at or below the second-newest checkpoint. */
  lemma {:induction false} SafeFromRetention(e: Engine, b: Base, s: System, since: int, head: int)
    requires Reachable(e, b, s) && b.baseSeq <= since
    requires Serving(s.t)
    ensures (forall now, days, us, es ::
               RowsOf(Journal(PruneBatch(s.t, now, days, us, es).updates, b.generation), since, head)
               == RowsOf(s.history, since, head))
            <==>
            (forall k | k in s.history && since < k <= head :: Floor(s.t, b) < k)
  {
    ReachableInv(e, b, s);
    SafeTables(e, b, s.t, s.history, since, head);
  }

  lemma SafeTables(e: Engine, b: Base, t: Tables, history: map<int, Bytes>, since: int, head: int)
    requires TablesOk(e, b, t, history) && Serving(t) && b.baseSeq <= since
    ensures (forall now, days, us, es ::
               RowsOf(Journal(PruneBatch(t, now, days, us, es).updates, b.generation), since, head)
               == RowsOf(history, since, head))
            <==>
            (forall k | k in history && since < k <= head :: Floor(t, b) < k)
  {
    if forall k | k in history && since < k <= head :: Floor(t, b) < k {
      forall now, days, us, es
        ensures RowsOf(Journal(PruneBatch(t, now, days, us, es).updates, b.generation), since, head)
                == RowsOf(history, since, head)
      {
        RowsSurvivePrune(e, b, t, history, since, head, now, days, us, es);
      }
    } else {
      var k :| k in history && since < k <= head && k <= Floor(t, b);
      RowIsPrunable(e, b, t, history, since, head, k);
    }
  }

  lemma RowsSurvivePrune(e: Engine, b: Base, t: Tables, history: map<int, Bytes>, since: int, head: int,
                         now: int, days: int, us: set<int>, es: set<int>)
    requires TablesOk(e, b, t, history) && b.baseSeq <= since
    requires forall k | k in history && since < k <= head :: Floor(t, b) < k
    ensures RowsOf(Journal(PruneBatch(t, now, days, us, es).updates, b.generation), since, head) == RowsOf(history, since, head)
  {
    var t' := PruneBatch(t, now, days, us, es);
    PruneTablesOk(e, b, t, history, now, days, us, es);
    assert Content(b, t', history) && Floor(t', b) == Floor(t, b);
    RowsFrame(Journal(t'.updates, b.generation), history, since, head);
  }

  /** A history row at or below the barrier can be missing from a page as soon as it is old. */
  lemma RowIsPrunable(e: Engine, b: Base, t: Tables, history: map<int, Bytes>, since: int, head: int, k: int)
    requires TablesOk(e, b, t, history) && Serving(t)
    requires k in history && since < k <= head && b.baseSeq < k <= Floor(t, b)
    ensures exists now, days, us, es ::
              RowsOf(Journal(PruneBatch(t, now, days, us, es).updates, b.generation), since, head)
              != RowsOf(history, since, head)
  {
    var now := if k in t.updates then t.updates[k].createdAt + 7 * DAY + 1 else 0;
    var t' := PruneBatch(t, now, 7, {k}, {});
    assert Barrier(t) == Some(Floor(t, b));
    assert k in t.updates ==> k in UpdateVictims(t, now, 7);
    assert k !in t'.updates;
    var rows := RowsOf(Journal(t'.updates, b.generation), since, head);
    RowsExact(Journal(t'.updates, b.generation), since, head);
    RowsExact(history, since, head);
    assert Row(k, history[k]) in RowsOf(history, since, head);
    assert Row(k, history[k]) !in rows;
    assert RowsOf(Journal(PruneBatch(t, now, 7, {k}, {}).updates, b.generation), since, head) != RowsOf(history, since, head);
  }

  // ---- fencing and the commit chain ----

  /** The job behind a step works under an epoch below the current one. */
  predicate Superseded(s: System, step: Step) {
    && s.t.head.Some?
    && (((step.Commit? || step.ActivateFinish?) && step.owner in s.owners && s.owners[step.owner].epoch < s.t.head.value.epoch)
        || (step.CompactPublish? && step.compactor in s.compactors
            && s.compactors[step.compactor].candidate.epoch < s.t.head.value.epoch))
  }

  /** A superseded owner or compaction writes nothing: no commit, no activation, no
      checkpoint. */
  lemma SupersededJobsAreInert(e: Engine, s: System, step: Step)
    requires Superseded(s, step)
    ensures Do(e, s, step).t == s.t && Do(e, s, step).history == s.history
  {
    match step
    case Commit(o, y, cid, id) => StaleCommitFails(e, s, o, y, cid, id);
    case _ =>
  }

  lemma StaleCommitFails(e: Engine, s: System, o: nat, y: Bytes, cid: string, id: nat)
    requires s.t.head.Some? && o in s.owners && s.owners[o].epoch < s.t.head.value.epoch
    ensures DoCommit(e, s, o, y, cid, id).t == s.t && DoCommit(e, s, o, y, cid, id).history == s.history
  {
    CommitHistory(e, s, o, y, cid, id);
    if s.owners[o].Resident? && s.t.base.Some? && e.apply(s.owners[o].doc, y).Some? {
      var r := s.owners[o];
      var d := e.apply(r.doc, y).value;
      var c := Submission(r.epoch, r.cursor, s.t.base.value.generation, id, cid, y, e.project(d), s.clock);
      if CommitTx(s.t, c).Success? {
        CommitTxEffect(s.t, c);
      }
    }
  }

  /** The watermark of an activated board moves only by an accepted commit, from the value the
      committer expected, and every epoch is made ready at most once. */
  lemma {:induction false} CommitChain(e: Engine, b: Base, s: System)
    requires Reachable(e, b, s)
    ensures && (forall i | 0 < i < |s.advances| :: s.advances[i].expected == s.advances[i - 1].reached)
            && (forall i, j | 0 <= i < j < |s.advances| ::
                  s.advances[i].reached <= s.advances[j].expected && s.advances[i].epoch <= s.advances[j].epoch)
            && (forall i | 0 <= i < |s.advances| :: s.advances[i].expected < s.advances[i].reached)
            && (forall i, j | 0 <= i < j < |s.readied| :: s.readied[i] < s.readied[j])
  {
    ReachableInv(e, b, s);
    forall i, j | 0 <= i < j < |s.advances|
      ensures s.advances[i].reached <= s.advances[j].expected
    {
      ChainOrdered(s.advances, i, j);
    }
  }

  lemma {:induction false} ChainOrdered(advances: seq<Advance>, i: nat, j: nat)
    requires i < j < |advances|
    requires forall k | 0 <= k < |advances| :: advances[k].expected < advances[k].reached
    requires forall k | 0 < k < |advances| :: advances[k].expected == advances[k - 1].reached
    ensures advances[i].reached <= advances[j].expected
  {
    if i < j - 1 {
      ChainOrdered(advances, i, j - 1);
    }
  }

  /** Once a board has history, its watermark moves only by a commit, under the current epoch
      and from the current value, and the log records it. No step lowers the epoch. */
  lemma {:induction false} WatermarkMovesAreLogged(e: Engine, b: Base, s: System, step: Step)
    requires Reachable(e, b, s) && s.t.head.Some? && s.history.Keys != {}
    ensures var s' := Do(e, s, step);
            && s'.t.head.Some?
            && s.t.head.value.epoch <= s'.t.head.value.epoch
            && (s'.t.head.value.processedSeq != s.t.head.value.processedSeq ==>
                  && step.Commit?
                  && s'.advances == s.advances + [Advance(s.t.head.value.epoch, s.t.head.value.processedSeq, s'.t.head.value.processedSeq)])
  {
    if step.Commit? {
      CommitHistory(e, s, step.owner, step.yupdate, step.clientEventId, step.eventId);
    } else if step.Prune? {
      PruneEffect(s.t, s.clock, step.days, step.updateRows, step.eventRows);
    } else if step.ActivateFinish? {
      ReachableInv(e, b, s);
      FinishKeepsWatermark(e, b, s, step.owner);
    } else {
      OtherStepsKeepTheWatermark(e, s, step);
    }
  }

  lemma OtherStepsKeepTheWatermark(e: Engine, s: System, step: Step)
    requires s.t.head.Some? && !step.Commit? && !step.Prune? && !step.ActivateFinish?
    ensures var s' := Do(e, s, step);
            && s'.t.head.Some? && s.t.head.value.epoch <= s'.t.head.value.epoch
            && s'.t.head.value.processedSeq == s.t.head.value.processedSeq
  {
    if ReadOnly(step) {
      ReadOnlyWritesNothing(e, s, step);
    }
  }

  lemma FinishKeepsWatermark(e: Engine, b: Base, s: System, o: nat)
    requires Inv(e, b, s) && s.t.head.Some? && s.history.Keys != {}
    ensures var s' := DoActivateFinish(s, o);
            s'.t.head.Some? && s'.t.head.value.processedSeq == s.t.head.value.processedSeq
            && s'.t.head.value.epoch == s.t.head.value.epoch
  {
    if o in s.owners && s.owners[o].Replaying? {
      assert OwnerOk(e, b, s.t, s.history, s.owners[o]);
    }
  }

  /** Every accepted commit was prepared against exactly the document it extends: the full
      history. No update is ever validated against one document and applied to another. */
  lemma {:induction false} CommitsExtendTheNewestDocument(e: Engine, b: Base, s: System, o: nat, c: Submission)
    requires Reachable(e, b, s)
    requires o in s.owners && s.owners[o].Resident? && c.epoch == s.owners[o].epoch
             && c.expectedSeq == s.owners[o].cursor && CommitTx(s.t, c).Success?
    ensures Some(s.owners[o].doc) == FullReplay(e, b, s)
  {
    ReachableInv(e, b, s);
    CommitterIsCurrent(e, b, s, o, c);
    FullReplayIsNewest(e, b, s);
  }

  // ---- activation ----

  /** An activation that makes the board ready leaves an owner holding the full history at the
      watermark it published; one that is not overtaken never reports a journal gap. */
  lemma {:induction false} ActivationIsExact(e: Engine, b: Base, s: System, o: nat)
    requires Reachable(e, b, s)
    requires o in s.owners && s.owners[o].Replaying?
    ensures s.owners[o].target == Watermark(b, s.history) && s.owners[o].pending != [] ==> !JournalGap(s, o)
    ensures var s' := DoActivateFinish(s, o);
            |s'.readied| > |s.readied| ==>
              && s'.t.head.value.state == Ready
              && o in s'.owners && s'.owners[o].Resident?
              && s'.owners[o].cursor == s'.t.head.value.processedSeq == Watermark(b, s'.history)
              && Some(s'.owners[o].doc) == FullReplay(e, b, s')
  {
    ReachableInv(e, b, s);
    var r := s.owners[o];
    assert OwnerOk(e, b, s.t, s.history, r);
    if r.target == Watermark(b, s.history) && r.pending != [] {
      NextRowIsHistory(e, b, s, o);
    }
    var s' := DoActivateFinish(s, o);
    if |s'.readied| > |s.readied| {
      ReplayReachesTarget(e, b, s, o);
      ActivateFinishKeeps(e, b, s, o);
      FullReplayIsNewest(e, b, s');
    }
  }

  // ---- checkpoints ----

  /** A stored checkpoint is never changed or removed. */
  lemma CheckpointsAreImmutable(e: Engine, s: System, step: Step)
    ensures forall key | key in s.t.snapshots ::
              key in Do(e, s, step).t.snapshots && Do(e, s, step).t.snapshots[key] == s.t.snapshots[key]
  {
    if ReadOnly(step) {
      ReadOnlyWritesNothing(e, s, step);
    }
  }

  /** Every checkpoint of a run is the full history at its revision, although its tail was
      read over several queries; and a compaction that could still publish fails only if the
      newest document does not load again. */
  lemma {:induction false} CheckpointsAreSound(e: Engine, b: Base, s: System)
    requires Reachable(e, b, s)
    ensures forall k | k in Checkpoints(s.t, b) ::
              ReplayRows(e, Some(b.stateUpdate), RowsOf(s.history, b.baseSeq, k))
              == Some(s.t.snapshots[SnapshotKey(b.clientId, b.generation, k)].stateUpdate)
    ensures forall c | c in s.compactors && TailComplete(s.compactors[c])
                       && s.compactors[c].candidate.processedSeq == Watermark(b, s.history) ::
              && FullReplay(e, b, s).Some?
              && Compacted(e, s.compactors[c]) == (if e.reloads(FullReplay(e, b, s).value)
                                                   then Success(FullReplay(e, b, s).value) else Failure(Reload))
              && (e.reloads(FullReplay(e, b, s).value) ==> PublishAttempt(e, s, s.compactors[c], FullReplay(e, b, s).value).Success?)
  {
    ReachableInv(e, b, s);
    FullReplayIsNewest(e, b, s);
    forall k | k in Checkpoints(s.t, b)
      ensures ReplayRows(e, Some(b.stateUpdate), RowsOf(s.history, b.baseSeq, k))
              == Some(s.t.snapshots[SnapshotKey(b.clientId, b.generation, k)].stateUpdate)
    {
      ReplayIsFold(e, Some(b.stateUpdate), s.history, b.baseSeq, k);
    }
    forall c | c in s.compactors && TailComplete(s.compactors[c])
               && s.compactors[c].candidate.processedSeq == Watermark(b, s.history)
      ensures Compacted(e, s.compactors[c]) == (if e.reloads(FullReplay(e, b, s).value)
                                                then Success(FullReplay(e, b, s).value) else Failure(Reload))
      ensures e.reloads(FullReplay(e, b, s).value) ==> PublishAttempt(e, s, s.compactors[c], FullReplay(e, b, s).value).Success?
    {
      assert CompactorOk(e, b, s.t, s.history, s.compactors[c]);
      CompactedIsDoc(e, b, s.t, s.history, s.compactors[c]);
      if e.reloads(FullReplay(e, b, s).value) {
        PublishNeverCollides(e, b, s, s.compactors[c]);
      }
    }
  }

  // ---- events ----

  /** Every linked journal row has its event, in every run. */
  lemma {:induction false} PairsStayComplete(e: Engine, b: Base, s: System)
    requires Reachable(e, b, s)
    ensures Paired(s.t)
  {
    ReachableInv(e, b, s);
  }

  /** An event disappears only by retention, at or below the second-newest checkpoint of a
      ready board, and only when no journal row of any generation remains at its sequence. */
  lemma EventsLeaveOnlyBelowTheBarrier(e: Engine, s: System, step: Step, k: int)
    requires k in s.t.events && k !in Do(e, s, step).t.events
    ensures step.Prune? && Barrier(s.t).Some? && k <= Barrier(s.t).value && k !in Do(e, s, step).t.updates
  {
    if step.Prune? {
      PruneEffect(s.t, s.clock, step.days, step.updateRows, step.eventRows);
    } else {
      OtherStepsKeepEvents(e, s, step, k);
    }
  }

  lemma OtherStepsKeepEvents(e: Engine, s: System, step: Step, k: int)
    requires !step.Prune? && k in s.t.events
    ensures k in Do(e, s, step).t.events
  {
    if ReadOnly(step) {
      ReadOnlyWritesNothing(e, s, step);
    }
  }

  // ---- asset projection ----

  /** Whenever the projection is read as fresh, it is the projection of the full history; a
      board with commits is refused exactly when it is not ready or the document has an
      unstable reference. */
  lemma {:induction false} FreshProjectionIsCurrent(e: Engine, b: Base, s: System)
    requires Reachable(e, b, s)
    ensures ReadIfFresh(s.t).Some? ==>
              && FullReplay(e, b, s).Some?
              && ReadIfFresh(s.t).value == (e.project(FullReplay(e, b, s).value).objectKeys,
                                            e.project(FullReplay(e, b, s).value).pdfDocIds)
    ensures s.history.Keys != {} ==>
              s.t.head.Some? && FullReplay(e, b, s).Some? &&
              (ReadIfFresh(s.t).Some? <==>
               s.t.head.value.state == Ready && !e.project(FullReplay(e, b, s).value).unstable)
  {
    ReachableInv(e, b, s);
    FullReplayIsNewest(e, b, s);
    if ProjectionFresh(s.t) {
      RefsRoundTrip(e.project(FullReplay(e, b, s).value));
    }
  }

  /** Storing references and reading them back separates the two kinds again. */
  lemma RefsRoundTrip(refs: AssetRefs)
    ensures forall ref | ref in RefsOf(refs) :: ref.kind == "object_key" || ref.kind == "pdf_doc"
    ensures (set ref | ref in RefsOf(refs) && ref.kind == "object_key" :: ref.stableRef) == refs.objectKeys
    ensures (set ref | ref in RefsOf(refs) && ref.kind == "pdf_doc" :: ref.stableRef) == refs.pdfDocIds
  {
    forall k | k in refs.objectKeys
      ensures k in (set ref | ref in RefsOf(refs) && ref.kind == "object_key" :: ref.stableRef)
    {
      assert AssetRef("object_key", k) in RefsOf(refs);
    }
    forall k | k in refs.pdfDocIds
      ensures k in (set ref | ref in RefsOf(refs) && ref.kind == "pdf_doc" :: ref.stableRef)
    {
      assert AssetRef("pdf_doc", k) in RefsOf(refs);
    }
    assert "object_key"[0] != "pdf_doc"[0];
  }
}
