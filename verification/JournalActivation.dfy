/** An undisturbed activation of a reachable board always succeeds, with the full history. */
module JournalActivation {
  import opened Wrappers
  import opened IntSets
  import opened Replay
  import opened CanonicalTables
  import opened JournalProtocol
  import opened JournalInvariant
  import opened JournalSteps
  import opened JournalClients
  import opened JournalTheorems
  import S = CanonicalStore

  /** Above the floor, walking the events is replaying the history. */
  lemma {:induction false} EventsReplayHistory(e: Engine, b: Base, t: Tables, history: map<int, Bytes>, doc: Option<Bytes>, lo: int, hi: int)
    requires Content(b, t, history) && Floor(t, b) <= lo && b.baseSeq <= lo
    ensures S.ReplayEvents(e, t, doc, KeysIn(t.events.Keys, lo, hi)) == Fold(e, doc, history, lo, hi)
    decreases hi - lo
  {
    if lo < hi {
      EventsReplayHistory(e, b, t, history, doc, lo, hi - 1);
      var before, all := KeysIn(t.events.Keys, lo, hi - 1), KeysIn(t.events.Keys, lo, hi);
      assert hi in t.events <==> hi in history;
      if hi in history {
        assert all[..|all| - 1] == before;
      } else {
        assert all == before;
      }
    }
  }

  /** The last event of the replayed interval is the newest revision. */
  lemma LastIsWatermark(b: Base, t: Tables, history: map<int, Bytes>, start: int)
    requires Bounds(b, t, history) && Content(b, t, history) && Floor(t, b) <= start && b.baseSeq <= start
    requires start <= Watermark(b, history)
    ensures S.LastKey(KeysIn(t.events.Keys, start, Watermark(b, history)), start) == Watermark(b, history)
  {
    var w := Watermark(b, history);
    if start < w {
      assert w in history && w in t.events.Keys;
      assert KeysIn(t.events.Keys, start, w) == KeysIn(t.events.Keys, start, w - 1) + [w];
    }
  }

  /** The start point of a read at the newest revision is at or above the floor. */
  lemma StartAboveFloor(e: Engine, b: Base, t: Tables, history: map<int, Bytes>)
    requires Bounds(b, t, history) && Sound(e, b, t, history)
    ensures Floor(t, b) <= StartPoint(t, b, Watermark(b, history)).0
  {
    StartIsDoc(e, b, t, history, Watermark(b, history));
    if |Checkpoints(t, b)| >= 2 {
      assert SecondOf(Checkpoints(t, b)) in Checkpoints(t, b);
    }
  }

  /** What the replay of an activation arrives at. */
  lemma ReplayArrives(e: Engine, b: Base, t: Tables, history: map<int, Bytes>)
    requires TablesOk(e, b, t, history)
    ensures var (start, doc) := StartPoint(t, b, Watermark(b, history));
            var listed := KeysIn(t.events.Keys, start, Watermark(b, history));
            && S.ReplayEvents(e, t, Some(doc), listed) == DocAt(e, b, history, Watermark(b, history))
            && S.LastKey(listed, start) == Watermark(b, history)
  {
    var w := Watermark(b, history);
    var (start, doc) := StartPoint(t, b, w);
    StartIsDoc(e, b, t, history, w);
    StartAboveFloor(e, b, t, history);
    EventsReplayHistory(e, b, t, history, Some(doc), start, w);
    DocSplit(e, b, history, start, w);
    LastIsWatermark(b, t, history, start);
  }

  /** From every reachable state of a live, unquarantined board an undisturbed activation makes
      or keeps it ready at the newest revision, changes nothing but the head, and returns an owner
      that holds the full history. */
  lemma {:induction false} ActivationSucceeds(e: Engine, b: Base, s: System)
    requires Reachable(e, b, s) && !b.abandoned
    requires s.t.head.Some? ==> s.t.head.value.state != Quarantined
    ensures var (t', r) := S.ActivateAlone(e, s.t);
            && t' == s.t.(head := t'.head) && t'.head.Some? && t'.head.value.state == Ready
            && t'.head.value.processedSeq == Watermark(b, s.history)
            && r.Success? && FullReplay(e, b, s).Some?
            && r.value == Resident(t'.head.value.epoch, FullReplay(e, b, s).value, Watermark(b, s.history))
  {
    ReachableInv(e, b, s);
    FullReplayIsNewest(e, b, s);
    assert DocAt(e, b, s.history, Watermark(b, s.history)).Some?;
    ReplayArrives(e, b, s.t, s.history);
    ActivationTarget(e, b, s.t, s.history);
    StartIsDoc(e, b, s.t, s.history, Watermark(b, s.history));
    WatermarkBounds(b, s.t, s.history);
    FirstTransaction(e, b, s.t, s.history);
  }

  /** The first transaction fixes the newest revision as the target. */
  lemma FirstTransaction(e: Engine, b: Base, t: Tables, history: map<int, Bytes>)
    requires TablesOk(e, b, t, history) && !b.abandoned
    requires t.head.Some? ==> t.head.value.state != Quarantined
    ensures ActivateTx(t, false).Success?
    ensures var (t', a) := ActivateTx(t, false).value;
            && t' == t.(head := t'.head) && t'.head.Some? && a.epoch == t'.head.value.epoch
            && a.target == Watermark(b, history)
            && (a.reused ==> t'.head.value.state == Ready && t'.head.value.processedSeq == Watermark(b, history))
            && (!a.reused ==> t'.head.value.state == Activating)
    ensures StartPoint(ActivateTx(t, false).value.0, b, Watermark(b, history)) == StartPoint(t, b, Watermark(b, history))
    ensures StartIntact(e, t, b, Watermark(b, history)) ==> StartIntact(e, ActivateTx(t, false).value.0, b, Watermark(b, history))
  {
    ActivationTarget(e, b, t, history);
    WatermarkBounds(b, t, history);
    var t' := ActivateTx(t, false).value.0;
    SameSnapshots(t, t', b, Watermark(b, history));
  }

  lemma SameSnapshots(t: Tables, t': Tables, b: Base, through: int)
    requires t'.snapshots == t.snapshots
    ensures ReadLatestAtOrBefore(t', b.clientId, b.generation, through) == ReadLatestAtOrBefore(t, b.clientId, b.generation, through)
  {
    assert Lineage(t', b.clientId, b.generation) == Lineage(t, b.clientId, b.generation);
  }
}
