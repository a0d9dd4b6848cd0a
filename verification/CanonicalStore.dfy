/** The board's tables as mutable state: each method is one database call or job loop, proved
    to compute the function of `CanonicalTables` the protocol is built from. */
module CanonicalStore {
  import opened Wrappers
  import opened IntSets
  import opened Replay
  import T = CanonicalTables
  import opened JournalProtocol

  datatype PruneResult = PruneResult(updateRows: nat, eventRows: nat)

  datatype ActivationError = Refused(error: T.DbError) | SnapshotMismatch | ReplayFailed | Superseded

  datatype ReadError = BootstrapUnavailable | SnapshotInvalid | RebootstrapRequired

  class Store {
    var base: Option<T.Base>
    var head: Option<T.Head>
    var nextEventSeq: int
    var updates: map<int, T.UpdateRow>
    var events: map<int, T.EventRow>
    var snapshots: map<T.SnapshotKey, T.Snapshot>
    var assetHead: Option<T.AssetHead>
    var assetRefs: set<T.AssetRef>

    constructor (t: T.Tables)
      ensures View() == t
    {
      base, head, nextEventSeq := t.base, t.head, t.nextEventSeq;
      updates, events, snapshots := t.updates, t.events, t.snapshots;
      assetHead, assetRefs := t.assetHead, t.assetRefs;
    }

    function View(): (t: T.Tables)
      reads this
    {
      T.Tables(base, head, nextEventSeq, updates, events, snapshots, assetHead, assetRefs)
    }

    // ---- base and head ----

    method UpsertBaseCas(locked: bool, candidate: T.Base, expected: Option<(int, int)>) returns (written: bool)
      modifies this`base
      ensures (View(), written) == T.UpsertBaseCas(old(View()), locked, candidate, expected)
    {
      if !locked { return false; }
      var current := None;
      if base.Some? {
        current := Some((base.value.baseSeq, base.value.generation));
      }
      if current != expected { return false; }
      base := Some(candidate.(abandoned := false));
      written := true;
    }

    method BeginActivation(generation: int) returns (begun: T.Head)
      modifies this`head
      ensures (View(), begun) == T.BeginActivation(old(View()), generation)
    {
      if head.None? {
        begun := T.Head(0, generation, 1, T.Activating);
      } else {
        begun := T.Head(head.value.processedSeq, generation, head.value.epoch + 1, T.Activating);
      }
      head := Some(begun);
    }

    method MarkReady(expectedEpoch: int, processedSeq: int) returns (applied: bool)
      modifies this`head
      ensures (View(), applied) == T.MarkReady(old(View()), expectedEpoch, processedSeq)
    {
      applied := head.Some? && head.value.epoch == expectedEpoch && head.value.state == T.Activating;
      if applied {
        head := Some(head.value.(state := T.Ready, processedSeq := processedSeq));
      }
    }

    method AdvanceProcessedSeq(expectedEpoch: int, expectedSeq: int, newSeq: int) returns (applied: bool)
      modifies this`head
      ensures (View(), applied) == T.AdvanceProcessedSeq(old(View()), expectedEpoch, expectedSeq, newSeq)
    {
      applied := head.Some? && head.value.epoch == expectedEpoch && head.value.processedSeq == expectedSeq
                 && head.value.state == T.Ready;
      if applied {
        head := Some(head.value.(processedSeq := newSeq));
      }
    }

    /** `SELECT COALESCE(MAX(seq), base_seq)` over the events. */
    method ActivationHead(baseSeq: int) returns (m: int)
      ensures m == T.ActivationHead(View(), baseSeq)
    {
      m := baseSeq;
      var rest, seen := events.Keys, {};
      while rest != {}
        invariant rest + seen == events.Keys
        invariant if seen == {} then m == baseSeq else m in seen && forall k | k in seen :: k <= m
        decreases rest
      {
        NoElementNoSet(rest);
        var k :| k in rest;
        if seen == {} || m < k {
          m := k;
        }
        rest, seen := rest - {k}, seen + {k};
      }
      assert seen == events.Keys;
      if seen != {} {
        MaxIs(events.Keys, m);
      }
    }

    /** First activation transaction. */
    method ActivateTx(takeover: bool) returns (r: Result<T.Activation, T.DbError>)
      modifies this`head
      ensures match T.ActivateTx(old(View()), takeover)
              case Failure(e) => r == Failure(e) && View() == old(View())
              case Success((t', a)) => r == Success(a) && View() == t'
    {
      if base.None? { return Failure(T.MissingBase); }
      var b := base.value;
      if b.abandoned { return Failure(T.Abandoned); }
      if head.Some? && head.value.state == T.Quarantined { return Failure(T.QuarantinedBoard); }
      var ready := !takeover && head.Some? && head.value.state == T.Ready
                   && head.value.generation == b.generation && head.value.processedSeq >= b.baseSeq;
      if ready {
        return Success(T.Activation(head.value.epoch, head.value.processedSeq, true));
      }
      var begun := BeginActivation(b.generation);
      var target := ActivationHead(b.baseSeq);
      r := Success(T.Activation(begun.epoch, target, false));
    }

    // ---- commit ----

    method ReserveNextEventSeq() returns (seqNo: int)
      modifies this`nextEventSeq
      ensures (View(), seqNo) == T.ReserveNextEventSeq(old(View()))
    {
      seqNo := nextEventSeq;
      nextEventSeq := nextEventSeq + 1;
    }

    method InsertEvent(seqNo: int, row: T.EventRow) returns (ok: bool)
      modifies this`events
      ensures match T.InsertEvent(old(View()), seqNo, row)
              case Failure(_) => !ok && View() == old(View())
              case Success(t') => ok && View() == t'
    {
      ok := seqNo !in events && !T.EventIdUsed(View(), row.id);
      if ok {
        events := events[seqNo := row];
      }
    }

    method InsertUpdate(seqNo: int, row: T.UpdateRow) returns (ok: bool)
      modifies this`updates
      ensures match T.InsertUpdate(old(View()), seqNo, row)
              case Failure(_) => !ok && View() == old(View())
              case Success(t') => ok && View() == t'
    {
      ok := seqNo !in updates && !T.ClientEventIdUsed(View(), row.clientEventId);
      if ok {
        updates := updates[seqNo := row];
      }
    }

    /** `replace_projection_tx`: delete the board's rows, then insert them one by one. */
    method ReplaceProjection(seqNo: int, generation: int, refs: AssetRefs)
      modifies this`assetRefs, this`assetHead
      ensures View() == T.ReplaceProjection(old(View()), seqNo, generation, refs)
    {
      assetRefs := {};
      if !refs.unstable {
        var keys := refs.objectKeys;
        while keys != {}
          invariant keys <= refs.objectKeys
          invariant assetRefs == set k | k in refs.objectKeys && k !in keys :: T.AssetRef("object_key", k)
          decreases keys
        {
          var k :| k in keys;
          assetRefs := assetRefs + {T.AssetRef("object_key", k)};
          keys := keys - {k};
        }
        ghost var stored := assetRefs;
        var docs := refs.pdfDocIds;
        while docs != {}
          invariant docs <= refs.pdfDocIds
          invariant assetRefs == stored + set k | k in refs.pdfDocIds && k !in docs :: T.AssetRef("pdf_doc", k)
          decreases docs
        {
          var k :| k in docs;
          assetRefs := assetRefs + {T.AssetRef("pdf_doc", k)};
          docs := docs - {k};
        }
        assert assetRefs == T.RefsOf(refs);
      }
      assetHead := Some(T.AssetHead(seqNo, generation, !refs.unstable));
    }

    /** `commit_once`'s transaction: every write is undone if a later one is refused. */
    method CommitTx(c: T.Submission) returns (r: Result<int, T.DbError>)
      modifies this
      ensures match T.CommitTx(old(View()), c)
              case Failure(e) => r == Failure(e) && View() == old(View())
              case Success((t', seqNo)) => r == Success(seqNo) && View() == t'
    {
      var seqBefore, eventsBefore, updatesBefore := nextEventSeq, events, updates;
      var seqNo := ReserveNextEventSeq();
      var ok := InsertEvent(seqNo, T.EventRow(c.eventId, c.now));
      if !ok {
        nextEventSeq := seqBefore;
        return Failure(T.UniqueViolation);
      }
      ok := InsertUpdate(seqNo, T.UpdateRow(Some(c.eventId), c.clientEventId, c.generation, c.yupdate, c.now));
      if !ok {
        nextEventSeq, events := seqBefore, eventsBefore;
        return Failure(T.UniqueViolation);
      }
      ok := AdvanceProcessedSeq(c.epoch, c.expectedSeq, seqNo);
      if !ok {
        nextEventSeq, events, updates := seqBefore, eventsBefore, updatesBefore;
        return Failure(T.StaleRevision);
      }
      ReplaceProjection(seqNo, c.generation, c.refs);
      r := Success(seqNo);
    }

    /** `read_if_fresh_tx` */
    method ReadIfFresh() returns (r: Option<(set<string>, set<string>)>)
      ensures r == T.ReadIfFresh(View())
    {
      if !T.ProjectionFresh(View()) { return None; }
      var objectKeys: set<string>, pdfDocIds: set<string> := {}, {};
      var rest, seen := assetRefs, {};
      while rest != {}
        invariant rest + seen == assetRefs
        invariant forall ref | ref in seen :: ref.kind == "object_key" || ref.kind == "pdf_doc"
        invariant objectKeys == set ref | ref in seen && ref.kind == "object_key" :: ref.stableRef
        invariant pdfDocIds == set ref | ref in seen && ref.kind == "pdf_doc" :: ref.stableRef
        decreases rest
      {
        var ref :| ref in rest;
        if ref.kind == "object_key" {
          objectKeys := objectKeys + {ref.stableRef};
        } else if ref.kind == "pdf_doc" {
          pdfDocIds := pdfDocIds + {ref.stableRef};
        } else {
          return None;
        }
        rest, seen := rest - {ref}, seen + {ref};
      }
      assert seen == assetRefs;
      r := Some((objectKeys, pdfDocIds));
    }

    // ---- journal reads ----

    /** `ORDER BY seq ASC LIMIT limit` as the index scan that answers it. */
    method ListUpdatesPage(since: int, through: int, generation: int, limit: nat) returns (rows: seq<Row>)
      ensures rows == T.ListUpdatesPage(View(), since, through, generation, limit)
    {
      ghost var journal := T.Journal(updates, generation);
      rows := [];
      var k := since;
      while k < through && |rows| < limit
        invariant since <= k && (k <= through || k == since)
        invariant rows == RowsOf(journal, since, k) && |rows| <= limit
        decreases through - k
      {
        k := k + 1;
        if k in updates && updates[k].generation == generation {
          rows := rows + [Row(k, updates[k].yupdate)];
        }
      }
      if k < through {
        RowsSplit(journal, since, k, through);
      }
    }

    /** `read_latest_at_or_before` */
    method ReadLatestAtOrBefore(clientId: int, generation: int, through: int) returns (r: Option<(int, T.Snapshot)>)
      ensures r == T.ReadLatestAtOrBefore(View(), clientId, generation, through)
    {
      r := None;
      var rest, seen := snapshots.Keys, {};
      while rest != {}
        invariant rest + seen == snapshots.Keys
        invariant r.Some? ==> r.value.0 <= through
                              && T.SnapshotKey(clientId, generation, r.value.0) in seen
                              && r.value.1 == snapshots[T.SnapshotKey(clientId, generation, r.value.0)]
        invariant forall key | key in seen && key.clientId == clientId && key.generation == generation && key.seqNo <= through ::
                    r.Some? && key.seqNo <= r.value.0
        decreases rest
      {
        var key :| key in rest;
        if key.clientId == clientId && key.generation == generation && key.seqNo <= through
           && (r.None? || r.value.0 < key.seqNo) {
          r := Some((key.seqNo, snapshots[key]));
        }
        rest, seen := rest - {key}, seen + {key};
      }
      assert seen == snapshots.Keys;
      LatestIs(View(), clientId, generation, through, r);
    }

    /** `compact_one`'s paging loop: page after page adds up to one unlimited query. */
    method ReadTail(start: int, target: int, generation: int) returns (tail: seq<Row>)
      ensures tail == RowsOf(T.Journal(updates, generation), start, target)
    {
      ghost var journal := T.Journal(updates, generation);
      var cursor := start;
      tail := [];
      while cursor < target
        invariant start <= cursor && (cursor <= target || cursor == start)
        invariant tail == RowsOf(journal, start, cursor)
        decreases target - cursor
      {
        var page := ListUpdatesPage(cursor, target, generation, UPDATE_PAGE);
        PageExtends(View(), generation, start, cursor, target, page);
        if page == [] { break; }
        tail := tail + page;
        if |page| < UPDATE_PAGE { break; }
        cursor := page[|page| - 1].seqNo;
      }
    }

    /** `activate_yrs_read_path` and `get_yrs_updates` with no other step in between. */
    method GetYrsUpdates(e: Engine, since: int, generation: Option<int>, limit: Option<int>)
      returns (r: Result<Page, ReadError>)
      ensures !Serving(View()) ==> r == Failure(BootstrapUnavailable)
      ensures Serving(View()) ==>
                var b, p := base.value, head.value.processedSeq;
                var start := StartPoint(View(), b, p).0;
                if !StartIntact(e, View(), b, p) then r == Failure(SnapshotInvalid)
                else if start <= since <= p && (generation.Some? ==> generation.value == b.generation)
                then r == Success(ServePage(View(), b.generation, since, p, PageLimit(limit)))
                else r == Failure(ReadError.RebootstrapRequired)
    {
      if base.None? || head.None? { return Failure(BootstrapUnavailable); }
      var b, h := base.value, head.value;
      if b.abandoned || h.state != T.Ready || h.generation != b.generation {
        return Failure(BootstrapUnavailable);
      }
      var selected := b.baseSeq;
      var snapshot := ReadLatestAtOrBefore(b.clientId, h.generation, h.processedSeq);
      if snapshot.Some? {
        if !T.Intact(e, snapshot.value.1) {
          return Failure(SnapshotInvalid);
        }
        selected := snapshot.value.0;
      }
      if since < selected || since > h.processedSeq || (generation.Some? && generation.value != b.generation) {
        return Failure(ReadError.RebootstrapRequired);
      }
      var n := PageLimit(limit);
      var rows := ListUpdatesPage(since, h.processedSeq, b.generation, n + 1);
      var hasMore := |rows| > n;
      if hasMore {
        rows := rows[..n];
      }
      var next := h.processedSeq;
      if hasMore {
        next := rows[|rows| - 1].seqNo;
      }
      r := Success(Page(rows, hasMore, next));
    }

    method ListEventsSince(cursor: int, limit: nat) returns (batch: seq<int>)
      ensures batch == T.EventsSince(View(), cursor, limit)
    {
      var newest := ActivationHead(cursor);
      batch := T.KeysIn(events.Keys, cursor, newest);
      if |batch| > limit {
        batch := batch[..limit];
      }
    }

    /** The inner loop of catch-up: the batch's events up to the revision being rebuilt. */
    method ApplyBatch(e: Engine, doc: Bytes, batch: seq<int>, target: int) returns (r: Option<Bytes>, n: nat)
      ensures n <= |batch| && (forall i | 0 <= i < n :: batch[i] <= target)
      ensures r == ReplayEvents(e, View(), Some(doc), batch[..n])
      ensures r.Some? && n < |batch| ==> batch[n] > target
    {
      r, n := Some(doc), 0;
      while n < |batch|
        invariant 0 <= n <= |batch| && forall i | 0 <= i < n :: batch[i] <= target
        invariant r.Some? && r == ReplayEvents(e, View(), Some(doc), batch[..n])
      {
        if batch[n] > target { break; }
        assert batch[..n + 1][..n] == batch[..n];
        if batch[n] !in updates { return None, n + 1; }
        r, n := e.apply(r.value, updates[batch[n]].yupdate), n + 1;
        if r.None? { break; }
      }
    }

    /** The catch-up loop of an activation, batch by batch; `None` is a journal gap or an update
        that does not apply. It applies what one listing of the interval would. */
    method CatchUp(e: Engine, start: int, doc: Bytes, target: int) returns (r: Option<Bytes>)
      ensures r == ReplayEvents(e, View(), Some(doc), T.KeysIn(events.Keys, start, target))
    {
      r := Some(doc);
      var cursor, done := start, false;
      while cursor < target && !done
        invariant start <= cursor && (cursor <= target || cursor == start)
        invariant r.Some? && r == ReplayEvents(e, View(), Some(doc), T.KeysIn(events.Keys, start, cursor))
        invariant done ==> forall k | cursor < k <= target :: k !in events
        decreases if done then 0 else 1, target - cursor
      {
        var batch := ListEventsSince(cursor, CATCH_UP_BATCH);
        if batch == [] {
          NothingSince(View(), cursor, CATCH_UP_BATCH);
          done := true;
        } else {
          var n;
          r, n := ApplyBatch(e, r.value, batch, target);
          ReplayOn(e, View(), Some(doc), T.KeysIn(events.Keys, start, cursor), batch[..n]);
          BatchAdvances(View(), start, cursor, target, batch, n);
          if r.None? {
            FailedBatch(e, View(), doc, start, cursor, target, batch, n);
            return None;
          }
          done := n < |batch|;
          if n > 0 {
            cursor := batch[n - 1];
          }
        }
      }
      RestIsEmpty(View(), start, cursor, target);
    }

    /** `activate` with no other step in between: the first transaction, the preferred base, the
        replay and the transaction that makes the board ready. */
    method Activate(e: Engine) returns (r: Result<Owner, ActivationError>)
      modifies this`head
      ensures (View(), r) == ActivateAlone(e, old(View()))
    {
      var begun := ActivateTx(false);
      if begun.Failure? { return Failure(Refused(begun.error)); }
      var a, b := begun.value, base.value;
      var start, doc := b.baseSeq, b.stateUpdate;
      var snapshot := ReadLatestAtOrBefore(b.clientId, b.generation, a.target);
      if snapshot.Some? {
        if !T.Intact(e, snapshot.value.1) { return Failure(SnapshotMismatch); }
        start, doc := snapshot.value.0, snapshot.value.1.stateUpdate;
      }
      ReplayIgnoresHead(e, old(View()), View(), Some(doc), T.KeysIn(events.Keys, start, a.target));
      var caughtUp := CatchUp(e, start, doc, a.target);
      if caughtUp.None? { return Failure(ReplayFailed); }
      if !a.reused {
        var ok := MarkReady(a.epoch, a.target);
        if !ok { return Failure(Superseded); }
      }
      r := Success(Resident(a.epoch, caughtUp.value, LastKey(T.KeysIn(events.Keys, start, a.target), start)));
    }

    // ---- compaction ----

    method PublishSnapshotCas(c: T.Candidate, key: T.SnapshotKey, snapshot: T.Snapshot) returns (r: Result<bool, T.DbError>)
      modifies this`snapshots
      ensures match T.PublishSnapshotCas(old(View()), c, key, snapshot)
              case Failure(e) => r == Failure(e) && View() == old(View())
              case Success((t', published)) => r == Success(published) && View() == t'
    {
      var same := head.Some? && head.value.state == T.Ready && head.value.processedSeq == c.processedSeq
                  && head.value.generation == c.generation && head.value.epoch == c.epoch;
      if !same { return Success(false); }
      if key !in snapshots {
        snapshots := snapshots[key := snapshot];
      } else if snapshots[key] != snapshot {
        return Failure(T.SnapshotCollision);
      }
      r := Success(true);
    }

    // ---- retention ----

    /** The second-newest checkpoint of the active lineage. */
    method Barrier() returns (r: Option<int>)
      ensures r == T.Barrier(View())
    {
      if base.None? || head.None? || base.value.abandoned || head.value.state != T.Ready
         || head.value.generation != base.value.generation {
        return None;
      }
      r := SecondNewest(T.Checkpoints(View(), base.value));
    }

    /** One retention transaction: up to the limit of eligible rows that nobody has locked,
        journal rows first. `us` and `es` are the rows it deleted; if an eligible unlocked row
        is left over then its half of the batch reached the limit. */
    method PruneBatch(now: int, days: int, limit: int, lockedUpdates: set<int>, lockedEvents: set<int>)
      returns (r: PruneResult, ghost us: set<int>, ghost es: set<int>)
      modifies this`updates, this`events
      ensures View() == T.PruneBatch(old(View()), now, days, us, es)
      ensures us <= T.UpdateVictims(old(View()), now, days) - lockedUpdates
      ensures es <= T.EventVictims(T.PruneBatch(old(View()), now, days, us, {}), now, days) - lockedEvents
      ensures r == PruneResult(|us|, |es|) && r.updateRows <= T.ClampLimit(limit) && r.eventRows <= T.ClampLimit(limit)
      ensures r.updateRows < T.ClampLimit(limit) ==> us == T.UpdateVictims(old(View()), now, days) - lockedUpdates
      ensures r.eventRows < T.ClampLimit(limit) ==>
                es == T.EventVictims(T.PruneBatch(old(View()), now, days, us, {}), now, days) - lockedEvents
    {
      var updateRows, eventRows;
      updateRows, us := PruneUpdates(now, days, limit, lockedUpdates);
      eventRows, es := PruneEvents(now, days, limit, lockedEvents);
      EventHalf(old(View()), now, days, us, es);
      r := PruneResult(updateRows, eventRows);
    }

    method PruneUpdates(now: int, days: int, limit: int, locked: set<int>) returns (n: nat, ghost us: set<int>)
      modifies this`updates
      ensures View() == T.PruneBatch(old(View()), now, days, us, {})
      ensures us <= T.UpdateVictims(old(View()), now, days) - locked && n == |us| <= T.ClampLimit(limit)
      ensures n < T.ClampLimit(limit) ==> us == T.UpdateVictims(old(View()), now, days) - locked
    {
      var barrier := Barrier();
      var eligible := {};
      if barrier.Some? {
        eligible := set k | k in updates.Keys && k <= barrier.value
                            && updates[k].generation == base.value.generation
                            && T.Expired(updates[k].createdAt, now, days) && k !in locked;
      }
      assert eligible == T.UpdateVictims(View(), now, days) - locked;
      var chosen := Choose(eligible, T.ClampLimit(limit));
      us, n := chosen, |chosen|;
      JournalHalf(View(), now, days, us);
      updates := updates - chosen;
    }

    method PruneEvents(now: int, days: int, limit: int, locked: set<int>) returns (n: nat, ghost es: set<int>)
      modifies this`events
      ensures View() == old(View()).(events := old(View()).events - es)
      ensures es <= T.EventVictims(old(View()), now, days) - locked && n == |es| <= T.ClampLimit(limit)
      ensures n < T.ClampLimit(limit) ==> es == T.EventVictims(old(View()), now, days) - locked
    {
      var barrier := Barrier();
      var eligible := {};
      if barrier.Some? {
        eligible := set k | k in events.Keys && k <= barrier.value
                            && T.Expired(events[k].createdAt, now, days) && k !in updates && k !in locked;
      }
      assert eligible == T.EventVictims(View(), now, days) - locked;
      var chosen := Choose(eligible, T.ClampLimit(limit));
      es, n := chosen, |chosen|;
      events := events - chosen;
    }
  }

  lemma LatestIs(t: T.Tables, clientId: int, generation: int, through: int, r: Option<(int, T.Snapshot)>)
    requires r.Some? ==> r.value.0 <= through && T.SnapshotKey(clientId, generation, r.value.0) in t.snapshots
                         && r.value.1 == t.snapshots[T.SnapshotKey(clientId, generation, r.value.0)]
    requires forall key | key in t.snapshots && key.clientId == clientId && key.generation == generation && key.seqNo <= through ::
               r.Some? && key.seqNo <= r.value.0
    ensures r == T.ReadLatestAtOrBefore(t, clientId, generation, through)
  {
    var expected := T.ReadLatestAtOrBefore(t, clientId, generation, through);
    if r.Some? {
      assert T.SnapshotKey(clientId, generation, r.value.0) in t.snapshots.Keys;
      assert r.value.0 in T.Lineage(t, clientId, generation);
      assert expected.Some? && r.value.0 <= expected.value.0;
      assert T.SnapshotKey(clientId, generation, expected.value.0) in t.snapshots;
    }
  }

  /** A short page completes the tail; a full one extends it to its last row. */
  lemma PageExtends(t: T.Tables, generation: int, start: int, cursor: int, target: int, page: seq<Row>)
    requires start <= cursor <= target && page == T.ListUpdatesPage(t, cursor, target, generation, UPDATE_PAGE)
    ensures var j := T.Journal(t.updates, generation);
            if |page| < UPDATE_PAGE then RowsOf(j, start, cursor) + page == RowsOf(j, start, target)
            else var next := page[|page| - 1].seqNo;
                 cursor < next <= target && RowsOf(j, start, cursor) + page == RowsOf(j, start, next)
  {
    var j := T.Journal(t.updates, generation);
    RowsSplit(j, start, cursor, target);
    if |page| >= UPDATE_PAGE {
      RowsPrefix(j, cursor, target, UPDATE_PAGE);
      RowsSplit(j, start, cursor, page[|page| - 1].seqNo);
    }
  }

  lemma JournalHalf(t: T.Tables, now: int, days: int, us: set<int>)
    requires us <= T.UpdateVictims(t, now, days)
    ensures T.PruneBatch(t, now, days, us, {}) == t.(updates := t.updates - us)
  {
    assert us * T.UpdateVictims(t, now, days) == us;
    assert T.PruneBatch(t, now, days, us, {}).events == t.events;
  }

  lemma EventHalf(t: T.Tables, now: int, days: int, us: set<int>, es: set<int>)
    requires es <= T.EventVictims(T.PruneBatch(t, now, days, us, {}), now, days)
    ensures var mid := T.PruneBatch(t, now, days, us, {});
            T.PruneBatch(t, now, days, us, es) == mid.(events := mid.events - es)
  {
    var mid := T.PruneBatch(t, now, days, us, {});
    var afterUpdates := t.(updates := t.updates - (us * T.UpdateVictims(t, now, days)));
    assert mid == afterUpdates by {
      assert mid.events == t.events;
    }
    assert es * T.EventVictims(mid, now, days) == es;
  }

  /** `ROW_NUMBER() OVER (... ORDER BY last_event_seq DESC) = 2` */
  method SecondNewest(lineage: set<int>) returns (second: Option<int>)
    ensures second == if |lineage| >= 2 then Some(SecondOf(lineage)) else None
  {
    var first: Option<int> := None;
    second := None;
    var rest, seen := lineage, {};
    while rest != {}
      invariant rest + seen == lineage && rest !! seen
      invariant TopTwo(seen, first, second)
      decreases rest
    {
      NoElementNoSet(rest);
      var k :| k in rest;
      TopTwoStep(seen, first, second, k);
      if first.None? {
        first := Some(k);
      } else if first.value < k {
        first, second := Some(k), first;
      } else if second.None? || second.value < k {
        second := Some(k);
      }
      rest, seen := rest - {k}, seen + {k};
    }
    assert seen == lineage;
    TopTwoIsSecond(seen, first, second);
  }

  lemma TopTwoStep(seen: set<int>, first: Option<int>, second: Option<int>, k: int)
    requires TopTwo(seen, first, second) && k !in seen
    ensures first.None? ==> TopTwo(seen + {k}, Some(k), second)
    ensures first.Some? && first.value < k ==> TopTwo(seen + {k}, Some(k), first)
    ensures first.Some? && k < first.value && (second.None? || second.value < k) ==> TopTwo(seen + {k}, first, Some(k))
    ensures first.Some? && k < first.value && second.Some? && k < second.value ==> TopTwo(seen + {k}, first, second)
  {
  }

  lemma TopTwoIsSecond(seen: set<int>, first: Option<int>, second: Option<int>)
    requires TopTwo(seen, first, second)
    ensures second == if |seen| >= 2 then Some(SecondOf(seen)) else None
  {
    if second.Some? {
      SubsetSize({first.value, second.value}, seen);
      MaxIs(seen, first.value);
    }
  }

  predicate TopTwo(seen: set<int>, first: Option<int>, second: Option<int>) {
    && (first.None? <==> seen == {})
    && (first.Some? ==> first.value in seen && forall k | k in seen :: k <= first.value)
    && (second.Some? ==> first.Some? && second.value in seen && second.value < first.value
                         && forall k | k in seen && k != first.value :: k <= second.value)
    && (second.None? && first.Some? ==> seen == {first.value})
  }

  /** Deterministic stand-in for the query's `ORDER BY ... LIMIT`: which rows it picks does not
      matter to retention. */
  method Choose(eligible: set<int>, limit: nat) returns (chosen: set<int>)
    ensures chosen <= eligible && |chosen| <= limit
    ensures |chosen| < limit ==> chosen == eligible
  {
    chosen := {};
    var rest := eligible;
    while rest != {} && |chosen| < limit
      invariant chosen + rest == eligible && chosen !! rest && |chosen| <= limit
      decreases rest
    {
      NoElementNoSet(rest);
      var k :| k in rest;
      chosen, rest := chosen + {k}, rest - {k};
    }
  }

  /** The document after applying the journal row of every listed event in turn. */
  function ReplayEvents(e: Engine, t: T.Tables, doc: Option<Bytes>, listed: seq<int>): Option<Bytes> {
    if listed == [] then doc
    else
      var k := listed[|listed| - 1];
      if k !in t.updates then None
      else Extend(e, ReplayEvents(e, t, doc, listed[..|listed| - 1]), t.updates[k].yupdate)
  }

  lemma {:induction false} GapIsFinal(e: Engine, t: T.Tables, doc: Option<Bytes>, listed: seq<int>, i: nat)
    requires i <= |listed| && ReplayEvents(e, t, doc, listed[..i]).None?
    ensures ReplayEvents(e, t, doc, listed).None?
  {
    if i == |listed| {
      assert listed[..i] == listed;
    } else {
      var front := listed[..|listed| - 1];
      assert front[..i] == listed[..i];
      GapIsFinal(e, t, doc, front, i);
    }
  }

  lemma {:induction false} ReplayOn(e: Engine, t: T.Tables, doc: Option<Bytes>, a: seq<int>, b: seq<int>)
    ensures ReplayEvents(e, t, doc, a + b) == ReplayEvents(e, t, ReplayEvents(e, t, doc, a), b)
  {
    if b == [] {
      assert a + b == a;
    } else {
      assert (a + b)[..|a + b| - 1] == a + b[..|b| - 1];
      ReplayOn(e, t, doc, a, b[..|b| - 1]);
    }
  }

  lemma NothingSince(t: T.Tables, cursor: int, limit: nat)
    requires T.EventsSince(t, cursor, limit) == [] && 1 <= limit
    ensures forall k | k in t.events :: k <= cursor
  {
    T.KeysExact(t.events.Keys, cursor, T.ActivationHead(t, cursor));
  }

  /** The events a batch has gone through are those of a longer interval; stopping short of the
      batch's end means that the target is passed. */
  lemma BatchAdvances(t: T.Tables, start: int, cursor: int, target: int, batch: seq<int>, n: nat)
    requires start <= cursor && batch == T.EventsSince(t, cursor, CATCH_UP_BATCH) && n <= |batch|
    ensures var next := if n == 0 then cursor else batch[n - 1];
            && cursor <= next && (0 < n ==> cursor < next)
            && T.KeysIn(t.events.Keys, start, cursor) + batch[..n] == T.KeysIn(t.events.Keys, start, next)
            && (n < |batch| && target < batch[n] ==> forall k | next < k <= target :: k !in t.events)
  {
    var keys, newest := t.events.Keys, T.ActivationHead(t, cursor);
    var all := T.KeysIn(keys, cursor, newest);
    T.KeysExact(keys, cursor, newest);
    if n > 0 {
      T.KeysPrefix(keys, cursor, newest, n);
      assert batch[..n] == all[..n];
      T.KeysSplit(keys, start, cursor, batch[n - 1]);
    } else {
      assert batch[..0] == [];
      assert T.KeysIn(keys, start, cursor) + [] == T.KeysIn(keys, start, cursor);
    }
    if n < |batch| && target < batch[n] {
      forall k | (if n == 0 then cursor else batch[n - 1]) < k <= target
        ensures k !in keys
      {
        if k in keys {
          assert k in all;
          var i :| 0 <= i < |all| && all[i] == k;
          NotBetween(all, n, i);
        }
      }
    }
  }

  /** Nothing of a sorted list lies strictly between two neighbours. */
  lemma NotBetween(all: seq<int>, n: nat, i: nat)
    requires n < |all| && i < |all| && forall i, j | 0 <= i < j < |all| :: all[i] < all[j]
    ensures all[i] >= all[n] || (n > 0 && all[i] <= all[n - 1])
  {
  }

  lemma FailedBatch(e: Engine, t: T.Tables, doc: Bytes, start: int, cursor: int, target: int, batch: seq<int>, n: nat)
    requires start <= cursor <= target && batch == T.EventsSince(t, cursor, CATCH_UP_BATCH) && n <= |batch|
    requires forall i | 0 <= i < n :: batch[i] <= target
    requires ReplayEvents(e, t, Some(doc), T.KeysIn(t.events.Keys, start, cursor) + batch[..n]).None?
    ensures ReplayEvents(e, t, Some(doc), T.KeysIn(t.events.Keys, start, target)).None?
  {
    BatchAdvances(t, start, cursor, target, batch, n);
    var next := if n == 0 then cursor else batch[n - 1];
    var all := T.KeysIn(t.events.Keys, start, target);
    var front := T.KeysIn(t.events.Keys, start, next);
    T.KeysSplit(t.events.Keys, start, next, target);
    assert all[..|front|] == front;
    GapIsFinal(e, t, Some(doc), all, |front|);
  }

  lemma RestIsEmpty(t: T.Tables, start: int, cursor: int, target: int)
    requires start <= cursor && (cursor <= target || cursor == start)
    requires cursor < target ==> forall k | cursor < k <= target :: k !in t.events
    ensures T.KeysIn(t.events.Keys, start, target) == T.KeysIn(t.events.Keys, start, cursor)
  {
    if cursor <= target {
      T.KeysSplit(t.events.Keys, start, cursor, target);
      T.KeysEmpty(t.events.Keys, cursor, target);
    }
  }

  function LastKey(listed: seq<int>, start: int): int {
    if listed == [] then start else listed[|listed| - 1]
  }

  /** The outcome of an activation that nothing interleaves with. */
  ghost function ActivateAlone(e: Engine, t: T.Tables): (T.Tables, Result<Owner, ActivationError>) {
    match T.ActivateTx(t, false)
    case Failure(x) => (t, Failure(Refused(x)))
    case Success((begun, a)) =>
      if !StartIntact(e, begun, t.base.value, a.target) then (begun, Failure(SnapshotMismatch))
      else
        var (start, doc) := StartPoint(begun, t.base.value, a.target);
        var listed := T.KeysIn(t.events.Keys, start, a.target);
        match ReplayEvents(e, t, Some(doc), listed)
        case None => (begun, Failure(ReplayFailed))
        case Some(d) =>
          var owner := Resident(a.epoch, d, LastKey(listed, start));
          if a.reused then (begun, Success(owner))
          else
            var (ready, applied) := T.MarkReady(begun, a.epoch, a.target);
            if applied then (ready, Success(owner)) else (begun, Failure(Superseded))
  }

  lemma {:induction false} ReplayIgnoresHead(e: Engine, t: T.Tables, t': T.Tables, doc: Option<Bytes>, listed: seq<int>)
    requires t'.updates == t.updates
    ensures ReplayEvents(e, t', doc, listed) == ReplayEvents(e, t, doc, listed)
  {
    if listed != [] {
      ReplayIgnoresHead(e, t, t', doc, listed[..|listed| - 1]);
    }
  }

  /** `compact_binary_snapshot`: check the order of the tail, then apply it. */
  method CompactBinarySnapshot(e: Engine, start: int, doc: Bytes, target: int, tail: seq<Row>)
    returns (r: Result<Bytes, T.CompactionError>)
    ensures r == T.CompactBinarySnapshot(e, start, doc, target, tail)
  {
    if target < start { return Failure(T.BarrierBeforeBase); }
    var prior, i := start, 0;
    while i < |tail|
      invariant 0 <= i <= |tail| && T.TailOrdered(tail[..i], start, target)
      invariant prior == if i == 0 then start else tail[i - 1].seqNo
    {
      if tail[i].seqNo <= prior || tail[i].seqNo > target {
        return Failure(T.TailOrder);
      }
      prior, i := tail[i].seqNo, i + 1;
    }
    assert tail[..i] == tail;
    var d := doc;
    i := 0;
    while i < |tail|
      invariant 0 <= i <= |tail| && ReplayRows(e, Some(doc), tail[..i]) == Some(d)
    {
      assert tail[..i + 1][..i] == tail[..i];
      var next := e.apply(d, tail[i].yupdate);
      if next.None? {
        assert tail == tail[..i + 1] + tail[i + 1..];
        ReplayAppend(e, Some(doc), tail[..i + 1], tail[i + 1..]);
        FailureIsFinal(e, tail[i + 1..]);
        return Failure(T.ApplyTail);
      }
      d, i := next.value, i + 1;
    }
    assert tail[..i] == tail;
    if !e.reloads(d) { return Failure(T.Reload); }
    r := Success(d);
  }

  lemma {:induction false} FailureIsFinal(e: Engine, rows: seq<Row>)
    ensures ReplayRows(e, None, rows) == None
  {
    if rows != [] {
      FailureIsFinal(e, rows[..|rows| - 1]);
    }
  }
}
