/** Every step keeps the invariant. */
module JournalSteps {
  import opened Wrappers
  import opened IntSets
  import opened Replay
  import opened CanonicalTables
  import opened JournalProtocol
  import opened JournalInvariant

  // ---- frames: steps that change the tables but not the history ----

  /** The head only moves forward: an epoch never falls, and within one epoch the board does
      not return to activating. */
  ghost predicate HeadForward(t: Tables, t': Tables) {
    t.head.Some? ==>
      && t'.head.Some? && t.head.value.epoch <= t'.head.value.epoch
      && (t.head.value.epoch == t'.head.value.epoch && t'.head.value.state == Activating ==>
            t.head.value.state == Activating)
  }

  /** At most the watermark itself joins the checkpoints. */
  ghost predicate CheckpointsForward(b: Base, t: Tables, t': Tables, history: map<int, Bytes>) {
    Checkpoints(t, b) <= Checkpoints(t', b) <= Checkpoints(t, b) + {Watermark(b, history)}
  }

  lemma OwnersFrame(e: Engine, b: Base, s: System, t': Tables)
    requires OwnersOk(e, b, s)
    requires HeadForward(s.t, t') && CheckpointsForward(b, s.t, t', s.history)
    ensures OwnersOk(e, b, s.(t := t'))
  {
  }

  lemma CompactorsFrame(e: Engine, b: Base, s: System, t': Tables)
    requires CompactorsOk(e, b, s)
    requires CheckpointsForward(b, s.t, t', s.history)
    ensures CompactorsOk(e, b, s.(t := t'))
  {
  }

  lemma ClientsFrame(e: Engine, b: Base, s: System, t': Tables)
    requires ClientsOk(e, b, s)
    requires CheckpointsForward(b, s.t, t', s.history)
    ensures ClientsOk(e, b, s.(t := t'))
  {
  }

  lemma LogFrame(b: Base, s: System, t': Tables)
    requires LogOk(b, s.t, s.history, s.advances, s.readied)
    requires HeadForward(s.t, t')
    ensures LogOk(b, t', s.history, s.advances, s.readied)
  {
  }

  lemma SameHistory(e: Engine, b: Base, s: System, t': Tables)
    requires Inv(e, b, s)
    requires HeadForward(s.t, t') && CheckpointsForward(b, s.t, t', s.history)
    requires TablesOk(e, b, t', s.history)
    ensures Inv(e, b, s.(t := t'))
  {
    OwnersFrame(e, b, s, t');
    CompactorsFrame(e, b, s, t');
    ClientsFrame(e, b, s, t');
    LogFrame(b, s, t');
  }

  // ---- one job changes, the tables do not ----

  lemma OwnerPut(e: Engine, b: Base, s: System, o: nat, owner: Owner)
    requires Inv(e, b, s) && OwnerOk(e, b, s.t, s.history, owner)
    ensures Inv(e, b, s.(owners := s.owners[o := owner]))
  {
  }

  lemma OwnerDrop(e: Engine, b: Base, s: System, o: nat)
    requires Inv(e, b, s)
    ensures Inv(e, b, s.(owners := s.owners - {o}))
  {
  }

  lemma CompactorPut(e: Engine, b: Base, s: System, c: nat, compactor: Compactor)
    requires Inv(e, b, s) && CompactorOk(e, b, s.t, s.history, compactor)
    ensures Inv(e, b, s.(compactors := s.compactors[c := compactor]))
  {
  }

  lemma CompactorDrop(e: Engine, b: Base, s: System, c: nat)
    requires Inv(e, b, s)
    ensures Inv(e, b, s.(compactors := s.compactors - {c}))
  {
  }

  // ---- head changes ----

  /** Tables that differ only in the head, the snapshots and nothing else keep what the rows say. */
  ghost predicate OnlyHead(t: Tables, t': Tables) {
    t' == t.(head := t'.head)
  }

  lemma OnlyHeadTables(e: Engine, b: Base, t: Tables, t': Tables, history: map<int, Bytes>)
    requires TablesOk(e, b, t, history) && OnlyHead(t, t') && HeadOk(b, t', history)
    ensures TablesOk(e, b, t', history) && CheckpointsForward(b, t, t', history)
  {
    assert Checkpoints(t', b) == Checkpoints(t, b);
  }

  lemma HeadChange(e: Engine, b: Base, s: System, t': Tables)
    requires Inv(e, b, s)
    requires OnlyHead(s.t, t') && HeadForward(s.t, t') && HeadOk(b, t', s.history)
    ensures Inv(e, b, s.(t := t'))
  {
    OnlyHeadTables(e, b, s.t, t', s.history);
    SameHistory(e, b, s, t');
  }

  lemma SeedKeeps(e: Engine, b: Base, s: System, locked: bool, candidate: Base)
    requires Inv(e, b, s)
    ensures Inv(e, b, Do(e, s, SeedBase(locked, candidate)))
    ensures Do(e, s, SeedBase(locked, candidate)) == s
  {
  }

  lemma QuarantineKeeps(e: Engine, b: Base, s: System)
    requires Inv(e, b, s)
    ensures Inv(e, b, Do(e, s, Quarantine))
  {
    if s.t.head.Some? {
      HeadChange(e, b, s, Do(e, s, Quarantine).t);
    }
  }

  // ---- activation ----

  lemma ActivationTarget(e: Engine, b: Base, t: Tables, history: map<int, Bytes>)
    requires TablesOk(e, b, t, history)
    ensures ActivationHead(t, b.baseSeq) == Watermark(b, history)
  {
  }

  lemma ActivateBeginKeeps(e: Engine, b: Base, s: System, o: nat, takeover: bool)
    requires Inv(e, b, s)
    ensures Inv(e, b, DoActivateBegin(s, o, takeover))
  {
    match ActivateTx(s.t, takeover)
    case Failure(_) =>
    case Success((t', a)) =>
      ActivationTarget(e, b, s.t, s.history);
      WatermarkBounds(b, s.t, s.history);
      HeadChange(e, b, s, t');
      OwnerPut(e, b, s.(t := t'), o, Loading(a.epoch, a.target, a.reused));
  }

  lemma SelectedOwnerOk(e: Engine, b: Base, t: Tables, history: map<int, Bytes>, l: Owner)
    requires TablesOk(e, b, t, history) && OwnerOk(e, b, t, history, l) && l.Loading?
    ensures var (start, doc) := StartPoint(t, b, l.target);
            OwnerOk(e, b, t, history, Replaying(l.epoch, l.target, l.reused, start, doc, start, []))
  {
    StartIsDoc(e, b, t, history, l.target);
    WatermarkBounds(b, t, history);
  }

  lemma ActivateSelectKeeps(e: Engine, b: Base, s: System, o: nat)
    requires Inv(e, b, s)
    ensures Inv(e, b, DoActivateSelect(e, s, o))
  {
    if o in s.owners && s.owners[o].Loading? {
      var l := s.owners[o];
      var (start, doc) := StartPoint(s.t, b, l.target);
      SelectedOwnerOk(e, b, s.t, s.history, l);
      OwnerPut(e, b, s, o, Replaying(l.epoch, l.target, l.reused, start, doc, start, []));
      OwnerDrop(e, b, s, o);
    }
  }

  lemma SortedIndex(a: seq<int>, i: nat, j: nat)
    requires i < |a| && j < |a| && a[i] <= a[j]
    requires forall i, j | 0 <= i < j < |a| :: a[i] < a[j]
    ensures i <= j
  {
  }

  /** While the target is still the watermark, the listed events are exactly the next history rows. */
  lemma BatchIsHistory(e: Engine, b: Base, t: Tables, history: map<int, Bytes>, start: int, target: int, cursor: int, n: nat)
    requires TablesOk(e, b, t, history)
    requires ScanSafe(t, b, start, target) && start <= cursor
    requires n <= |KeysIn(t.events.Keys, cursor, target)|
    ensures PendingExact(history, cursor, KeysIn(t.events.Keys, cursor, target)[..n])
  {
    var all := KeysIn(t.events.Keys, cursor, target);
    KeysExact(t.events.Keys, cursor, target);
    ScanAboveFloor(t, b, start, target);
    assert forall i | 0 <= i < |all| :: all[i] in t.events && b.baseSeq < all[i];
    forall k | k in history && cursor < k && all[..n] != [] && k <= all[..n][n - 1]
      ensures k in all[..n]
    {
      assert k in t.events && k in all;
      InPrefix(all, n, k);
    }
  }

  /** A member of a sorted list that is not beyond its n-th element is among the first n. */
  lemma InPrefix(all: seq<int>, n: nat, k: int)
    requires 0 < n <= |all| && k in all && k <= all[n - 1]
    requires forall i, j | 0 <= i < j < |all| :: all[i] < all[j]
    ensures k in all[..n]
  {
    var i :| 0 <= i < |all| && all[i] == k;
    SortedIndex(all, i, n - 1);
    assert all[..n][i] == k;
  }

  lemma ListedOwnerOk(e: Engine, b: Base, t: Tables, history: map<int, Bytes>, r: Owner, n: nat)
    requires TablesOk(e, b, t, history) && OwnerOk(e, b, t, history, r) && r.Replaying?
    requires n <= |KeysIn(t.events.Keys, r.cursor, r.target)|
    ensures OwnerOk(e, b, t, history, r.(pending := KeysIn(t.events.Keys, r.cursor, r.target)[..n]))
  {
    KeysExact(t.events.Keys, r.cursor, r.target);
    if r.target == Watermark(b, history) {
      BatchIsHistory(e, b, t, history, r.start, r.target, r.cursor, n);
    }
  }

  lemma ActivateBatchKeeps(e: Engine, b: Base, s: System, o: nat)
    requires Inv(e, b, s)
    ensures Inv(e, b, DoActivateBatch(s, o))
  {
    if o in s.owners && s.owners[o].Replaying? && s.owners[o].pending == [] {
      var r := s.owners[o];
      var all := KeysIn(s.t.events.Keys, r.cursor, r.target);
      var n := if |all| <= CATCH_UP_BATCH then |all| else CATCH_UP_BATCH;
      assert all[..|all|] == all;
      ListedOwnerOk(e, b, s.t, s.history, r, n);
      OwnerPut(e, b, s, o, r.(pending := all[..n]));
    }
  }

  /** The next listed event of a safe scan has its journal row, and applying that row gives
      the document at that revision. */
  lemma NextRow(e: Engine, b: Base, t: Tables, history: map<int, Bytes>, start: int, target: int, doc: Bytes, cursor: int, pending: seq<int>)
    requires Content(b, t, history) && Sound(e, b, t, history)
    requires ScanSafe(t, b, start, target) && start <= cursor && pending != []
    requires PendingOrdered(cursor, target, pending) && PendingExact(history, cursor, pending)
    requires Some(doc) == DocAt(e, b, history, cursor)
    ensures pending[0] in t.updates
    ensures Extend(e, Some(doc), t.updates[pending[0]].yupdate) == DocAt(e, b, history, pending[0])
  {
    var p := pending[0];
    ScanAboveFloor(t, b, start, target);
    FloorAboveBase(e, b, t, history);
    assert p in history;
    forall k | cursor < k && k in history
      ensures p <= k
    {
      if k <= pending[|pending| - 1] {
        var i :| 0 <= i < |pending| && pending[i] == k;
      }
    }
    DocSplit(e, b, history, cursor, p - 1);
    FoldGap(e, DocAt(e, b, history, cursor), history, cursor, p - 1);
  }

  /** Consuming the head of the list keeps it exact. */
  lemma PendingTail(history: map<int, Bytes>, cursor: int, target: int, pending: seq<int>)
    requires pending != []
    requires PendingOrdered(cursor, target, pending) && PendingExact(history, cursor, pending)
    ensures PendingOrdered(pending[0], target, pending[1..]) && PendingExact(history, pending[0], pending[1..])
  {
    var rest := pending[1..];
    forall k | k in history && pending[0] < k && rest != [] && k <= rest[|rest| - 1]
      ensures k in rest
    {
      assert rest[|rest| - 1] == pending[|pending| - 1];
      assert k in pending;
    }
  }

  /** An owner that has not been overtaken never meets a journal gap. */
  lemma NextRowIsHistory(e: Engine, b: Base, s: System, o: nat)
    requires Inv(e, b, s)
    requires o in s.owners && s.owners[o].Replaying? && s.owners[o].pending != []
    requires s.owners[o].target == Watermark(b, s.history)
    ensures !JournalGap(s, o)
  {
    var r := s.owners[o];
    assert OwnerOk(e, b, s.t, s.history, r);
    NextRow(e, b, s.t, s.history, r.start, r.target, r.doc, r.cursor, r.pending);
  }

  lemma ReplayedOwnerOk(e: Engine, b: Base, t: Tables, history: map<int, Bytes>, r: Owner, d: Bytes)
    requires TablesOk(e, b, t, history) && OwnerOk(e, b, t, history, r)
    requires r.Replaying? && r.pending != [] && r.pending[0] in t.updates
    requires e.apply(r.doc, t.updates[r.pending[0]].yupdate) == Some(d)
    ensures OwnerOk(e, b, t, history, r.(doc := d, cursor := r.pending[0], pending := r.pending[1..]))
  {
    if r.target == Watermark(b, history) {
      NextRow(e, b, t, history, r.start, r.target, r.doc, r.cursor, r.pending);
      PendingTail(history, r.cursor, r.target, r.pending);
    }
  }

  lemma ActivateReplayKeeps(e: Engine, b: Base, s: System, o: nat)
    requires Inv(e, b, s)
    ensures Inv(e, b, DoActivateReplay(e, s, o))
  {
    OwnerDrop(e, b, s, o);
    if o in s.owners && s.owners[o].Replaying? && s.owners[o].pending != [] && !JournalGap(s, o) {
      var r := s.owners[o];
      var applied := e.apply(r.doc, s.t.updates[r.pending[0]].yupdate);
      if applied.Some? {
        ReplayedOwnerOk(e, b, s.t, s.history, r, applied.value);
        OwnerPut(e, b, s, o, r.(doc := applied.value, cursor := r.pending[0], pending := r.pending[1..]));
      }
    }
  }

  /** An owner that has not been overtaken finishes its replay exactly at the watermark. */
  lemma ReplayReachesTarget(e: Engine, b: Base, s: System, o: nat)
    requires Inv(e, b, s)
    requires o in s.owners && s.owners[o].Replaying? && ReplayDone(s, s.owners[o])
    requires s.owners[o].target == Watermark(b, s.history)
    ensures s.owners[o].cursor == Watermark(b, s.history)
  {
    var r := s.owners[o];
    assert OwnerOk(e, b, s.t, s.history, r);
    KeysExact(s.t.events.Keys, r.cursor, r.target);
    ScanAboveFloor(s.t, b, r.start, r.target);
    WatermarkBounds(b, s.t, s.history);
  }

  /** The head after `mark_ready`: the owner's target is the watermark the board had reached. */
  lemma ReadiedHeadOk(e: Engine, b: Base, t: Tables, history: map<int, Bytes>, r: Owner)
    requires TablesOk(e, b, t, history) && OwnerOk(e, b, t, history, r) && r.Replaying? && !r.reused
    requires MarkReady(t, r.epoch, r.target).1
    ensures HeadOk(b, MarkReady(t, r.epoch, r.target).0, history)
  {
  }

  lemma ActivateFinishKeeps(e: Engine, b: Base, s: System, o: nat)
    requires Inv(e, b, s)
    ensures Inv(e, b, DoActivateFinish(s, o))
  {
    OwnerDrop(e, b, s, o);
    if o in s.owners && s.owners[o].Replaying? && ReplayDone(s, s.owners[o]) {
      var r := s.owners[o];
      var resident := Resident(r.epoch, r.doc, r.cursor);
      assert OwnerOk(e, b, s.t, s.history, r);
      assert OwnerOk(e, b, s.t, s.history, resident);
      OwnerPut(e, b, s, o, resident);
      var (t', applied) := MarkReady(s.t, r.epoch, r.target);
      if !r.reused && applied {
        ReadiedHeadOk(e, b, s.t, s.history, r);
        HeadChange(e, b, s.(owners := s.owners[o := resident]), t');
        FinishLog(b, s, r.epoch, t');
      }
    }
  }

  lemma FinishLog(b: Base, s: System, epoch: int, t': Tables)
    requires LogOk(b, s.t, s.history, s.advances, s.readied)
    requires s.t.head.Some? && s.t.head.value.epoch == epoch && s.t.head.value.state == Activating
    requires t'.head.Some? && t'.head.value.epoch == epoch && t'.head.value.state == Ready
    ensures LogOk(b, t', s.history, s.advances, s.readied + [epoch])
  {
  }
}
