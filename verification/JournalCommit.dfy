/** Commits keep the invariant: the history grows by exactly the accepted update. */
module JournalCommit {
  import opened Wrappers
  import opened IntSets
  import opened Replay
  import opened CanonicalTables
  import opened JournalProtocol
  import opened JournalInvariant
  import opened JournalSteps

  /** Extending the history past its watermark leaves earlier documents alone and makes the
      new document the old newest one with the update applied. */
  lemma HistoryGrows(e: Engine, b: Base, history: map<int, Bytes>, grown: map<int, Bytes>, seqNo: int, y: Bytes, d: Bytes)
    requires grown == history[seqNo := y]
    requires forall k | k in history :: b.baseSeq < k < seqNo
    requires b.baseSeq < seqNo
    requires Extend(e, DocAt(e, b, history, Watermark(b, history)), y) == Some(d)
    ensures forall k: int | k < seqNo :: DocAt(e, b, grown, k) == DocAt(e, b, history, k)
    ensures forall k: int | seqNo <= k :: DocAt(e, b, grown, k) == Some(d)
    ensures Watermark(b, grown) == seqNo
  {
    forall k: int | k < seqNo
      ensures DocAt(e, b, grown, k) == DocAt(e, b, history, k)
    {
      FoldFrame(e, Some(b.stateUpdate), grown, history, b.baseSeq, k);
    }
    var w := Watermark(b, history);
    assert b.baseSeq <= w < seqNo;
    DocSplit(e, b, history, w, seqNo - 1);
    FoldGap(e, DocAt(e, b, history, w), history, w, seqNo - 1);
    assert DocAt(e, b, grown, seqNo) == Extend(e, DocAt(e, b, grown, seqNo - 1), y);
    forall k: int | seqNo <= k
      ensures DocAt(e, b, grown, k) == Some(d)
    {
      DocSplit(e, b, grown, seqNo, k);
      FoldGap(e, Some(d), grown, seqNo, k);
    }
    assert seqNo in grown.Keys;
    MaxIs(grown.Keys, seqNo);
  }

  /** What a successful commit transaction did. */
  ghost predicate Committed(t: Tables, t': Tables, seqNo: int, c: Submission) {
    && seqNo == t.nextEventSeq && t'.nextEventSeq == seqNo + 1
    && t.head.Some? && t.head.value.state == Ready && t.head.value.epoch == c.epoch
    && t.head.value.processedSeq == c.expectedSeq
    && t'.head == Some(t.head.value.(processedSeq := seqNo))
    && t'.base == t.base && t'.snapshots == t.snapshots
    && t'.events == t.events[seqNo := EventRow(c.eventId, c.now)]
    && t'.updates == t.updates[seqNo := UpdateRow(Some(c.eventId), c.clientEventId, c.generation, c.yupdate, c.now)]
    && t'.assetHead == Some(AssetHead(seqNo, c.generation, !c.refs.unstable))
    && t'.assetRefs == (if c.refs.unstable then {} else RefsOf(c.refs))
  }

  lemma CommitTxEffect(t: Tables, c: Submission)
    requires CommitTx(t, c).Success?
    ensures Committed(t, CommitTx(t, c).value.0, CommitTx(t, c).value.1, c)
    ensures !EventIdUsed(t, c.eventId) && !ClientEventIdUsed(t, c.clientEventId)
  {
  }

  /** `grown` is the history with the accepted update, and documents at it are as expected. */
  ghost predicate Grown(e: Engine, b: Base, history: map<int, Bytes>, grown: map<int, Bytes>, seqNo: int, y: Bytes, d: Bytes) {
    && grown == history[seqNo := y]
    && (forall k: int | k < seqNo :: DocAt(e, b, grown, k) == DocAt(e, b, history, k))
    && (forall k: int | seqNo <= k :: DocAt(e, b, grown, k) == Some(d))
    && Watermark(b, grown) == seqNo
  }

  lemma CommitRows(b: Base, t: Tables, t': Tables, history: map<int, Bytes>, seqNo: int, c: Submission)
    requires Bounds(b, t, history) && Content(b, t, history) && Paired(t)
    requires Committed(t, t', seqNo, c) && c.generation == b.generation
    ensures Bounds(b, t', history[seqNo := c.yupdate]) && Content(b, t', history[seqNo := c.yupdate]) && Paired(t')
  {
    CommitContent(b, t, t', history, seqNo, c);
  }

  lemma CommitContent(b: Base, t: Tables, t': Tables, history: map<int, Bytes>, seqNo: int, c: Submission)
    requires Bounds(b, t, history) && Content(b, t, history)
    requires Committed(t, t', seqNo, c) && c.generation == b.generation
    ensures Content(b, t', history[seqNo := c.yupdate])
  {
    assert Checkpoints(t', b) == Checkpoints(t, b);
    assert Floor(t', b) == Floor(t, b);
  }

  lemma CommitDocs(e: Engine, b: Base, t: Tables, t': Tables, history: map<int, Bytes>, grown: map<int, Bytes>, seqNo: int, c: Submission, d: Bytes)
    requires Bounds(b, t, history) && Decodes(e, b, history) && Sound(e, b, t, history)
    requires Committed(t, t', seqNo, c) && Grown(e, b, history, grown, seqNo, c.yupdate, d)
    ensures Decodes(e, b, grown) && Sound(e, b, t', grown)
  {
    assert Checkpoints(t', b) == Checkpoints(t, b);
    forall k: int
      ensures DocAt(e, b, grown, k).Some?
    {
      if k < seqNo {
        assert DocAt(e, b, grown, k) == DocAt(e, b, history, k);
      } else {
        assert DocAt(e, b, grown, k) == Some(d);
      }
    }
    WatermarkBounds(b, t, history);
  }

  lemma CommitHead(e: Engine, b: Base, t: Tables, t': Tables, history: map<int, Bytes>, grown: map<int, Bytes>, seqNo: int, c: Submission, d: Bytes)
    requires Bounds(b, t, history) && HeadOk(b, t, history)
    requires Committed(t, t', seqNo, c) && Grown(e, b, history, grown, seqNo, c.yupdate, d)
    requires c.refs == e.project(d) && c.generation == b.generation
    ensures HeadOk(b, t', grown) && NewestEvent(b, t', grown) && Projected(e, b, t', grown)
  {
    assert seqNo in t'.events.Keys;
    MaxIs(t'.events.Keys, seqNo);
  }

  lemma CommitTablesOk(e: Engine, b: Base, t: Tables, history: map<int, Bytes>, c: Submission, d: Bytes)
    requires TablesOk(e, b, t, history) && CommitTx(t, c).Success?
    requires c.generation == b.generation && c.refs == e.project(d)
    requires Extend(e, DocAt(e, b, history, Watermark(b, history)), c.yupdate) == Some(d)
    ensures var (t', seqNo) := CommitTx(t, c).value;
            TablesOk(e, b, t', history[seqNo := c.yupdate])
  {
    CommitTxEffect(t, c);
    var (t', seqNo) := CommitTx(t, c).value;
    var grown := history[seqNo := c.yupdate];
    HistoryGrows(e, b, history, grown, seqNo, c.yupdate, d);
    CommitRows(b, t, t', history, seqNo, c);
    CommitDocs(e, b, t, t', history, grown, seqNo, c, d);
    CommitHead(e, b, t, t', history, grown, seqNo, c, d);
  }

  /** A commit overtakes every other owner and compaction; clients keep what they hold. */
  lemma CommitJobs(e: Engine, b: Base, s: System, t': Tables, seqNo: int, y: Bytes, d: Bytes)
    requires Inv(e, b, s)
    requires seqNo == s.t.nextEventSeq && s.t.head.Some? && s.t.head.value.state == Ready
    requires t'.head == Some(s.t.head.value.(processedSeq := seqNo))
    requires t'.snapshots == s.t.snapshots && t'.base == s.t.base
    requires Extend(e, DocAt(e, b, s.history, Watermark(b, s.history)), y) == Some(d)
    ensures OwnersOk(e, b, s.(t := t', history := s.history[seqNo := y]))
    ensures CompactorsOk(e, b, s.(t := t', history := s.history[seqNo := y]))
    ensures ClientsOk(e, b, s.(t := t', history := s.history[seqNo := y]))
  {
    var s' := s.(t := t', history := s.history[seqNo := y]);
    HistoryGrows(e, b, s.history, s'.history, seqNo, y, d);
    WatermarkBounds(b, s.t, s.history);
    assert Checkpoints(t', b) == Checkpoints(s.t, b);
    forall o | o in s.owners
      ensures OwnerOk(e, b, t', s'.history, s.owners[o])
    {
      assert OwnerOk(e, b, s.t, s.history, s.owners[o]);
    }
    forall c | c in s.compactors
      ensures CompactorOk(e, b, t', s'.history, s.compactors[c])
    {
      assert CompactorOk(e, b, s.t, s.history, s.compactors[c]);
    }
    forall c | c in s.clients
      ensures ClientOk(e, b, t', s'.history, s.clients[c])
    {
      assert ClientOk(e, b, s.t, s.history, s.clients[c]);
    }
  }

  /** An advance that starts where the log ended, at no earlier epoch, extends the chain. */
  lemma LogExtended(advances: seq<Advance>, a: Advance)
    requires forall i | 0 <= i < |advances| :: advances[i].expected < advances[i].reached
    requires forall i | 0 < i < |advances| :: advances[i].expected == advances[i - 1].reached
    requires forall i, j | 0 <= i < j < |advances| :: advances[i].epoch <= advances[j].epoch
    requires a.expected < a.reached
    requires advances != [] ==> advances[|advances| - 1].reached == a.expected
                                && advances[|advances| - 1].epoch <= a.epoch
    ensures var after := advances + [a];
            && (forall i | 0 <= i < |after| :: after[i].expected < after[i].reached)
            && (forall i | 0 < i < |after| :: after[i].expected == after[i - 1].reached)
            && (forall i, j | 0 <= i < j < |after| :: after[i].epoch <= after[j].epoch)
  {
    var n := |advances|;
    var after := advances + [a];
    forall i | 0 < i < |after|
      ensures after[i].expected == after[i - 1].reached
    {
      assert after[i - 1] == advances[i - 1];
    }
    forall i, j | 0 <= i < j < |after|
      ensures after[i].epoch <= after[j].epoch
    {
      assert after[i] == advances[i] && advances[i].epoch <= advances[n - 1].epoch;
    }
  }

  lemma CommitLog(b: Base, s: System, t': Tables, history': map<int, Bytes>, a: Advance)
    requires LogOk(b, s.t, s.history, s.advances, s.readied)
    requires s.t.head.Some? && t'.head.Some? && s.t.head.value.epoch == t'.head.value.epoch == a.epoch
    requires s.t.head.value.state == t'.head.value.state == Ready
    requires a.expected == Watermark(b, s.history) < a.reached == Watermark(b, history')
    ensures LogOk(b, t', history', s.advances + [a], s.readied)
  {
    LogExtended(s.advances, a);
  }

  /** A resident owner whose commit passes the fences holds the newest document. */
  lemma CommitterIsCurrent(e: Engine, b: Base, s: System, o: nat, c: Submission)
    requires Inv(e, b, s) && o in s.owners && s.owners[o].Resident?
    requires c.epoch == s.owners[o].epoch && c.expectedSeq == s.owners[o].cursor
    requires CommitTx(s.t, c).Success?
    ensures s.owners[o].cursor == Watermark(b, s.history)
    ensures Some(s.owners[o].doc) == DocAt(e, b, s.history, Watermark(b, s.history))
  {
    CommitTxEffect(s.t, c);
    assert OwnerOk(e, b, s.t, s.history, s.owners[o]);
  }

  lemma CommitAccepted(e: Engine, b: Base, s: System, o: nat, c: Submission, d: Bytes)
    requires Inv(e, b, s) && o in s.owners && s.owners[o].Resident?
    requires c.epoch == s.owners[o].epoch && c.expectedSeq == s.owners[o].cursor
    requires c.generation == b.generation && c.refs == e.project(d)
    requires e.apply(s.owners[o].doc, c.yupdate) == Some(d)
    requires CommitTx(s.t, c).Success?
    ensures var (t', seqNo) := CommitTx(s.t, c).value;
            Inv(e, b, s.(t := t', history := s.history[seqNo := c.yupdate],
                         owners := s.owners[o := Resident(c.epoch, d, seqNo)],
                         advances := s.advances + [Advance(c.epoch, c.expectedSeq, seqNo)]))
  {
    var (t', seqNo) := CommitTx(s.t, c).value;
    var grown := s.history[seqNo := c.yupdate];
    CommitterIsCurrent(e, b, s, o, c);
    CommitTxEffect(s.t, c);
    CommitTablesOk(e, b, s.t, s.history, c, d);
    CommitJobs(e, b, s, t', seqNo, c.yupdate, d);
    HistoryGrows(e, b, s.history, grown, seqNo, c.yupdate, d);
    WatermarkBounds(b, s.t, s.history);
    CommitLog(b, s, t', grown, Advance(c.epoch, c.expectedSeq, seqNo));
    assert OwnerOk(e, b, s.t, s.history, s.owners[o]);
    assert OwnerOk(e, b, t', grown, Resident(c.epoch, d, seqNo));
  }

  lemma CommitKeeps(e: Engine, b: Base, s: System, o: nat, y: Bytes, cid: string, id: nat)
    requires Inv(e, b, s)
    ensures Inv(e, b, DoCommit(e, s, o, y, cid, id))
  {
    if o in s.owners && s.owners[o].Resident? && e.apply(s.owners[o].doc, y).Some? {
      var r := s.owners[o];
      var d := e.apply(r.doc, y).value;
      var c := Submission(r.epoch, r.cursor, b.generation, id, cid, y, e.project(d), s.clock);
      if CommitTx(s.t, c).Success? {
        CommitAccepted(e, b, s, o, c, d);
      }
    }
  }
}
