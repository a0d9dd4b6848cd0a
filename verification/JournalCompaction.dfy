/** Compaction and retention keep the invariant. */
module JournalCompaction {
  import opened Wrappers
  import opened IntSets
  import opened Replay
  import opened CanonicalTables
  import opened JournalProtocol
  import opened JournalInvariant
  import opened JournalSteps

  /** A page read where journal and history agree is the next stretch of the history. */
  lemma PageIsHistory(t: Tables, generation: int, history: map<int, Bytes>, lo: int, hi: int, limit: nat)
    requires Agree(Journal(t.updates, generation), history, lo, hi) && 0 < limit
    ensures var page := ListUpdatesPage(t, lo, hi, generation, limit);
            var next := if page == [] then lo else page[|page| - 1].seqNo;
            && page == RowsOf(history, lo, next)
            && lo <= next && (next <= hi || hi < lo)
            && (|page| < limit ==> forall k | next < k <= hi :: k !in history)
  {
    var journal := Journal(t.updates, generation);
    RowsFrame(journal, history, lo, hi);
    RowsExact(history, lo, hi);
    var all := RowsOf(history, lo, hi);
    var page := ListUpdatesPage(t, lo, hi, generation, limit);
    if page == [] {
      RowsEmpty(history, lo, hi);
    } else {
      RowsPrefix(history, lo, hi, |page|);
      var next := page[|page| - 1].seqNo;
      assert page == all[..|page|];
      if |page| < limit {
        RowsSplit(history, lo, next, hi);
        RowsEmpty(history, next, hi);
      }
    }
  }

  lemma CompactChooseKeeps(e: Engine, b: Base, s: System, c: nat, minUpdates: int, minBytes: int)
    requires Inv(e, b, s)
    ensures Inv(e, b, DoCompactChoose(s, c, minUpdates, minBytes))
  {
  }

  lemma CompactVerifyKeeps(e: Engine, b: Base, s: System, c: nat)
    requires Inv(e, b, s)
    ensures Inv(e, b, DoCompactVerify(s, c))
  {
    CompactorDrop(e, b, s, c);
    if c in s.compactors && s.compactors[c].Chosen? {
      assert CompactorOk(e, b, s.t, s.history, s.compactors[c]);
      CompactorPut(e, b, s, c, Verified(s.compactors[c].candidate));
    }
  }

  lemma StartedCompactorOk(e: Engine, b: Base, t: Tables, history: map<int, Bytes>, c: Compactor)
    requires TablesOk(e, b, t, history) && CompactorOk(e, b, t, history, c)
    ensures var (start, doc) := StartPoint(t, b, c.candidate.processedSeq);
            CompactorOk(e, b, t, history, Tailing(c.candidate, start, doc, start, [], false))
  {
    StartIsDoc(e, b, t, history, c.candidate.processedSeq);
    WatermarkBounds(b, t, history);
  }

  lemma CompactStartKeeps(e: Engine, b: Base, s: System, c: nat)
    requires Inv(e, b, s)
    ensures Inv(e, b, DoCompactStart(s, c))
  {
    if c in s.compactors && s.compactors[c].Verified? {
      var candidate := s.compactors[c].candidate;
      assert CompactorOk(e, b, s.t, s.history, s.compactors[c]);
      StartedCompactorOk(e, b, s.t, s.history, s.compactors[c]);
      var (start, doc) := StartPoint(s.t, b, candidate.processedSeq);
      CompactorPut(e, b, s, c, Tailing(candidate, start, doc, start, [], false));
    }
  }

  lemma PagedCompactorOk(e: Engine, b: Base, t: Tables, history: map<int, Bytes>, w: Compactor)
    requires TablesOk(e, b, t, history) && CompactorOk(e, b, t, history, w)
    requires w.Tailing? && !w.drained && w.cursor < w.candidate.processedSeq
    ensures var page := ListUpdatesPage(t, w.cursor, w.candidate.processedSeq, w.candidate.generation, UPDATE_PAGE);
            CompactorOk(e, b, t, history, Tailing(w.candidate, w.start, w.startDoc,
              if page == [] then w.cursor else page[|page| - 1].seqNo, w.tail + page, |page| < UPDATE_PAGE))
  {
    var p, cursor := w.candidate.processedSeq, w.cursor;
    if p == Watermark(b, history) {
      ScanAboveFloor(t, b, w.start, p);
      SurvivesAbove(e, b, t, history, cursor, p);
      PageIsHistory(t, b.generation, history, cursor, p, UPDATE_PAGE);
      var page := ListUpdatesPage(t, cursor, p, b.generation, UPDATE_PAGE);
      RowsSplit(history, w.start, cursor, if page == [] then cursor else page[|page| - 1].seqNo);
    }
  }

  lemma CompactPageKeeps(e: Engine, b: Base, s: System, c: nat)
    requires Inv(e, b, s)
    ensures Inv(e, b, DoCompactPage(s, c))
  {
    if c in s.compactors && s.compactors[c].Tailing? && !s.compactors[c].drained
       && s.compactors[c].cursor < s.compactors[c].candidate.processedSeq {
      var w := s.compactors[c];
      assert CompactorOk(e, b, s.t, s.history, w);
      PagedCompactorOk(e, b, s.t, s.history, w);
      var page := ListUpdatesPage(s.t, w.cursor, w.candidate.processedSeq, w.candidate.generation, UPDATE_PAGE);
      var w' := Tailing(w.candidate, w.start, w.startDoc,
        if page == [] then w.cursor else page[|page| - 1].seqNo, w.tail + page, |page| < UPDATE_PAGE);
      CompactorPut(e, b, s, c, w');
      assert DoCompactPage(s, c) == s.(compactors := s.compactors[c := w']);
    }
  }

  /** A compaction whose head is still the watermark rebuilds exactly the newest document,
      however its page reads interleaved with prunes and competing publications. */
  lemma CompactedIsDoc(e: Engine, b: Base, t: Tables, history: map<int, Bytes>, w: Compactor)
    requires TablesOk(e, b, t, history) && CompactorOk(e, b, t, history, w)
    requires TailComplete(w) && w.candidate.processedSeq == Watermark(b, history)
    ensures DocAt(e, b, history, Watermark(b, history)).Some?
    ensures var doc := DocAt(e, b, history, Watermark(b, history)).value;
            Compacted(e, w) == if e.reloads(doc) then Success(doc) else Failure(Reload)
  {
    var p := w.candidate.processedSeq;
    assert forall k | w.cursor < k <= p :: k !in history;
    TailReplay(e, b, history, w.start, w.startDoc, w.cursor, p);
    HistoryIsOrdered(history, w.start, w.cursor, p);
    assert DocAt(e, b, history, p).Some?;
  }

  lemma HistoryIsOrdered(history: map<int, Bytes>, start: int, cursor: int, target: int)
    requires start <= cursor <= target
    ensures TailOrdered(RowsOf(history, start, cursor), start, target)
  {
    RowsExact(history, start, cursor);
  }

  /** A tail read up to a gap below the target rebuilds the document at the target. */
  lemma TailReplay(e: Engine, b: Base, history: map<int, Bytes>, start: int, doc: Bytes, cursor: int, target: int)
    requires b.baseSeq <= start <= cursor <= target && Some(doc) == DocAt(e, b, history, start)
    requires forall k | cursor < k <= target :: k !in history
    ensures ReplayRows(e, Some(doc), RowsOf(history, start, cursor)) == DocAt(e, b, history, target)
  {
    ReplayIsFold(e, Some(doc), history, start, cursor);
    DocSplit(e, b, history, start, cursor);
    DocSplit(e, b, history, cursor, target);
    FoldGap(e, DocAt(e, b, history, cursor), history, cursor, target);
  }

  /** Publishing at the watermark adds at most that one checkpoint. */
  lemma CheckpointJoins(b: Base, t: Tables, t': Tables, w: int, snapshot: Snapshot)
    requires t' == InsertSnapshot(t, SnapshotKey(b.clientId, b.generation, w), snapshot).0
    ensures Checkpoints(t', b) == Checkpoints(t, b) + {w}
    ensures forall k | k in Checkpoints(t, b) ::
              t'.snapshots[SnapshotKey(b.clientId, b.generation, k)] == t.snapshots[SnapshotKey(b.clientId, b.generation, k)]
  {
    forall k
      ensures k in Checkpoints(t', b) <==> k in Checkpoints(t, b) || k == w
    {
      CheckpointKey(t, b, k);
      CheckpointKey(t', b, k);
    }
  }

  lemma FloorRises(b: Base, t: Tables, t': Tables, w: int)
    requires Checkpoints(t', b) == Checkpoints(t, b) + {w}
    requires forall k | k in Checkpoints(t', b) :: b.baseSeq <= k
    ensures Floor(t, b) <= Floor(t', b)
  {
    if |Checkpoints(t, b)| >= 2 {
      SecondGrows(Checkpoints(t, b), w);
    }
  }

  lemma PublishSound(e: Engine, b: Base, t: Tables, t': Tables, history: map<int, Bytes>, doc: Bytes)
    requires Bounds(b, t, history) && Sound(e, b, t, history)
    requires Some(doc) == DocAt(e, b, history, Watermark(b, history)) && e.reloads(doc)
    requires t' == InsertSnapshot(t, SnapshotKey(b.clientId, b.generation, Watermark(b, history)), Encoded(e, doc)).0
    ensures Sound(e, b, t', history)
  {
    var w := Watermark(b, history);
    CheckpointJoins(b, t, t', w, Encoded(e, doc));
    WatermarkBounds(b, t, history);
    CheckpointKey(t, b, w);
  }

  /** The rows and documents after a checkpoint joined at the watermark. */
  lemma PublishTablesOk(e: Engine, b: Base, t: Tables, t': Tables, history: map<int, Bytes>, doc: Bytes)
    requires TablesOk(e, b, t, history) && t.head.Some?
    requires Some(doc) == DocAt(e, b, history, Watermark(b, history)) && e.reloads(doc)
    requires t' == InsertSnapshot(t, SnapshotKey(b.clientId, b.generation, Watermark(b, history)), Encoded(e, doc)).0
    ensures TablesOk(e, b, t', history)
    ensures CheckpointsForward(b, t, t', history)
  {
    var w := Watermark(b, history);
    PublishSound(e, b, t, t', history, doc);
    CheckpointJoins(b, t, t', w, Encoded(e, doc));
    FloorRises(b, t, t', w);
  }

  /** A publication never meets different bytes under its key. */
  lemma PublishNeverCollides(e: Engine, b: Base, s: System, w: Compactor)
    requires TablesOk(e, b, s.t, s.history) && CompactorOk(e, b, s.t, s.history, w) && TailComplete(w)
    requires Compacted(e, w).Success?
    ensures PublishAttempt(e, s, w, Compacted(e, w).value).Success?
    ensures PublishAttempt(e, s, w, Compacted(e, w).value).value.1 ==>
              w.candidate.processedSeq == Watermark(b, s.history)
  {
    if s.t.head.Some? && s.t.head.value.state == Ready && s.t.head.value.processedSeq == w.candidate.processedSeq {
      CompactedIsDoc(e, b, s.t, s.history, w);
      CheckpointKey(s.t, b, w.candidate.processedSeq);
    }
  }

  lemma CompactPublishKeeps(e: Engine, b: Base, s: System, c: nat)
    requires Inv(e, b, s)
    ensures Inv(e, b, DoCompactPublish(e, s, c))
  {
    if c in s.compactors && TailComplete(s.compactors[c]) {
      var w := s.compactors[c];
      var ended := s.(compactors := s.compactors - {c});
      CompactorDrop(e, b, s, c);
      if Compacted(e, w).Success? {
        var doc := Compacted(e, w).value;
        PublishNeverCollides(e, b, s, w);
        var (t', published) := PublishAttempt(e, s, w, doc).value;
        if published {
          CompactedIsDoc(e, b, s.t, s.history, w);
          PublishTablesOk(e, b, s.t, t', s.history, doc);
          SameHistory(e, b, ended, t');
        }
      }
    }
  }

  /** What a prune may have removed: rows at or below `barrier`, and events without a row. */
  ghost predicate Pruned(t: Tables, t': Tables, barrier: int) {
    && t' == t.(updates := t'.updates, events := t'.events)
    && t'.updates.Keys <= t.updates.Keys && t'.events.Keys <= t.events.Keys
    && (forall k | k in t'.updates :: t'.updates[k] == t.updates[k])
    && (forall k | k in t'.events :: t'.events[k] == t.events[k])
    && (forall k | k in t.updates && k !in t'.updates :: k <= barrier)
    && (forall k | k in t.events && k !in t'.events :: k <= barrier && k !in t'.updates)
  }

  lemma PruneEffect(t: Tables, now: int, days: int, us: set<int>, es: set<int>)
    ensures Barrier(t).None? ==> PruneBatch(t, now, days, us, es) == t
    ensures Barrier(t).Some? ==> Pruned(t, PruneBatch(t, now, days, us, es), Barrier(t).value)
  {
    var afterUpdates := t.(updates := t.updates - (us * UpdateVictims(t, now, days)));
    if Barrier(t).Some? {
      assert Checkpoints(afterUpdates, t.base.value) == Checkpoints(t, t.base.value);
    }
  }

  lemma PrunedRows(b: Base, t: Tables, t': Tables, history: map<int, Bytes>)
    requires Bounds(b, t, history) && Content(b, t, history) && Paired(t)
    requires Pruned(t, t', Floor(t, b))
    ensures Bounds(b, t', history) && Content(b, t', history) && Paired(t')
  {
    assert Checkpoints(t', b) == Checkpoints(t, b);
  }

  lemma PrunedNewestEvent(b: Base, t: Tables, t': Tables, history: map<int, Bytes>)
    requires Content(b, t, history) && NewestEvent(b, t, history)
    requires Pruned(t, t', Floor(t, b))
    requires history.Keys != {} && Floor(t, b) < Watermark(b, history)
    ensures NewestEvent(b, t', history)
  {
    var w := Watermark(b, history);
    assert w in t.events.Keys && w in t'.events.Keys;
    MaxIs(t'.events.Keys, w);
  }

  /** Retention removes only rows at or below the floor, and never the newest event. */
  lemma PruneTablesOk(e: Engine, b: Base, t: Tables, history: map<int, Bytes>, now: int, days: int, us: set<int>, es: set<int>)
    requires TablesOk(e, b, t, history)
    ensures TablesOk(e, b, PruneBatch(t, now, days, us, es), history)
    ensures Checkpoints(PruneBatch(t, now, days, us, es), b) == Checkpoints(t, b)
    ensures PruneBatch(t, now, days, us, es).head == t.head
  {
    var t' := PruneBatch(t, now, days, us, es);
    PruneEffect(t, now, days, us, es);
    if Barrier(t).Some? {
      FloorAboveBase(e, b, t, history);
      PrunedRows(b, t, t', history);
      PrunedNewestEvent(b, t, t', history);
      assert Checkpoints(t', b) == Checkpoints(t, b);
    }
  }

  lemma PruneKeeps(e: Engine, b: Base, s: System, t': Tables, days: int, us: set<int>, es: set<int>)
    requires Inv(e, b, s) && t' == PruneBatch(s.t, s.clock, days, us, es)
    ensures Inv(e, b, s.(t := t'))
  {
    PruneTablesOk(e, b, s.t, s.history, s.clock, days, us, es);
    assert CheckpointsForward(b, s.t, t', s.history);
    assert HeadForward(s.t, t');
    SameHistory(e, b, s, t');
  }
}
