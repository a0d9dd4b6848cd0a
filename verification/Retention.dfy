/** Bounded retention batches against one unbounded retention.

    A batch looks at the tables of every board at once and its row limit is shared between
    them. Rows another transaction holds are skipped, so a batch may delete any subset of the
    eligible rows that fits the limit; a batch that found no locked row is full. */
module Retention {
  import opened Wrappers
  import opened IntSets
  import opened Replay
  import opened CanonicalTables

  type Boards = map<nat, Tables>

  /** One row of one board. */
  datatype RowId = RowId(board: nat, seqNo: int)

  ghost function On(rows: set<RowId>, board: nat): set<int> {
    set row | row in rows && row.board == board :: row.seqNo
  }

  ghost function OldUpdates(boards: Boards, now: int, days: int): set<RowId> {
    set board, k | board in boards.Keys && k in UpdateVictims(boards[board], now, days) :: RowId(board, k)
  }

  ghost function OldEvents(boards: Boards, now: int, days: int): set<RowId> {
    set board, k | board in boards.Keys && k in EventVictims(boards[board], now, days) :: RowId(board, k)
  }

  /** The journal half of a batch. */
  ghost function DropUpdates(boards: Boards, now: int, days: int, us: set<RowId>): Boards {
    map board | board in boards :: PruneBatch(boards[board], now, days, On(us, board), {})
  }

  /** The whole batch: journal rows first, then events that have none left. */
  ghost function Prune(boards: Boards, now: int, days: int, us: set<RowId>, es: set<RowId>): Boards {
    map board | board in boards :: PruneBatch(boards[board], now, days, On(us, board), On(es, board))
  }

  /** What one batch may delete; `full` if no eligible row was locked. */
  ghost predicate Batch(boards: Boards, now: int, days: int, limit: int, us: set<RowId>, es: set<RowId>, full: bool) {
    var u := OldUpdates(boards, now, days);
    var v := OldEvents(DropUpdates(boards, now, days, us), now, days);
    && us <= u && |us| <= ClampLimit(limit)
    && es <= v && |es| <= ClampLimit(limit)
    && (full ==> (|us| == ClampLimit(limit) || us == u) && (|es| == ClampLimit(limit) || es == v))
  }

  /** Everything eligible deleted in one transaction without a limit. */
  ghost function OneShot(t: Tables, now: int, days: int): Tables {
    PruneBatch(t, now, days, t.updates.Keys, t.events.Keys)
  }

  ghost function OneShotAll(boards: Boards, now: int, days: int): Boards {
    map board | board in boards :: OneShot(boards[board], now, days)
  }

  // ---- one board ----

  lemma BarrierFixed(t: Tables, now: int, days: int, us: set<int>, es: set<int>)
    ensures Barrier(PruneBatch(t, now, days, us, es)) == Barrier(t)
    ensures PruneBatch(t, now, days, us, es).base == t.base
  {
    if t.base.Some? {
      assert Checkpoints(PruneBatch(t, now, days, us, es), t.base.value) == Checkpoints(t, t.base.value);
    }
  }

  lemma VictimsLeft(t: Tables, now: int, days: int, us: set<int>, es: set<int>)
    ensures UpdateVictims(PruneBatch(t, now, days, us, es), now, days) == UpdateVictims(t, now, days) - us
  {
    BarrierFixed(t, now, days, us, es);
  }

  /** Journal rows and events the one-shot retention leaves: exactly those not eligible now
      and not becoming eligible by its own journal deletions. */
  lemma OneShotRows(t: Tables, now: int, days: int)
    ensures var s := OneShot(t, now, days);
            && s == t.(updates := s.updates, events := s.events)
            && s.updates == t.updates - UpdateVictims(t, now, days)
            && s.events == t.events - (set k | k in t.events.Keys && Barrier(t).Some? && k <= Barrier(t).value
                                         && Expired(t.events[k].createdAt, now, days)
                                         && k !in t.updates.Keys - UpdateVictims(t, now, days))
  {
    BarrierFixed(t, now, days, t.updates.Keys, {});
    assert t.updates.Keys * UpdateVictims(t, now, days) == UpdateVictims(t, now, days);
  }

  lemma BatchRows(t: Tables, now: int, days: int, us: set<int>, es: set<int>)
    ensures var s := PruneBatch(t, now, days, us, es);
            && s == t.(updates := s.updates, events := s.events)
            && s.updates == t.updates - (us * UpdateVictims(t, now, days))
            && s.events == t.events - (set k | k in t.events.Keys && k in es && Barrier(t).Some? && k <= Barrier(t).value
                                         && Expired(t.events[k].createdAt, now, days)
                                         && k !in t.updates.Keys - us * UpdateVictims(t, now, days))
  {
    BarrierFixed(t, now, days, us, {});
  }

  /** A batch, whatever it picked, does not change what the one-shot retention ends in. */
  lemma OneShotAbsorbs(t: Tables, now: int, days: int, us: set<int>, es: set<int>)
    ensures OneShot(PruneBatch(t, now, days, us, es), now, days) == OneShot(t, now, days)
  {
    var s := PruneBatch(t, now, days, us, es);
    BarrierFixed(t, now, days, us, es);
    VictimsLeft(t, now, days, us, es);
    OneShotRows(t, now, days);
    OneShotRows(s, now, days);
    BatchRows(t, now, days, us, es);
    assert s.updates.Keys - UpdateVictims(s, now, days) == t.updates.Keys - UpdateVictims(t, now, days);
    assert OneShot(s, now, days).updates == OneShot(t, now, days).updates;
    assert OneShot(s, now, days).events == OneShot(t, now, days).events;
  }

  lemma NothingEligible(t: Tables, now: int, days: int)
    requires UpdateVictims(t, now, days) == {} && EventVictims(t, now, days) == {}
    ensures OneShot(t, now, days) == t
  {
    OneShotRows(t, now, days);
    assert OneShot(t, now, days).updates == t.updates;
    assert OneShot(t, now, days).events == t.events;
  }

  // ---- all boards ----

  lemma AbsorbsAll(boards: Boards, now: int, days: int, us: set<RowId>, es: set<RowId>)
    ensures OneShotAll(Prune(boards, now, days, us, es), now, days) == OneShotAll(boards, now, days)
  {
    forall board | board in boards
      ensures OneShot(Prune(boards, now, days, us, es)[board], now, days) == OneShot(boards[board], now, days)
    {
      OneShotAbsorbs(boards[board], now, days, On(us, board), On(es, board));
    }
  }

  /** Rows past the barrier or too young are never touched. What an expired event below the
      barrier waits for is its journal row. */
  ghost function AgedEvents(t: Tables, now: int, days: int): set<int> {
    if Barrier(t).None? then {}
    else set k | k in t.events.Keys && k <= Barrier(t).value && Expired(t.events[k].createdAt, now, days)
  }

  ghost function Aged(boards: Boards, now: int, days: int): set<RowId> {
    set board, k | board in boards.Keys && k in AgedEvents(boards[board], now, days) :: RowId(board, k)
  }

  /** Rows that retention may still delete, now or once journal rows are gone. */
  ghost function Work(boards: Boards, now: int, days: int): nat {
    |OldUpdates(boards, now, days)| + |Aged(boards, now, days)|
  }

  lemma UpdatesLeft(boards: Boards, now: int, days: int, us: set<RowId>, es: set<RowId>)
    ensures OldUpdates(Prune(boards, now, days, us, es), now, days) == OldUpdates(boards, now, days) - us
  {
    var after := Prune(boards, now, days, us, es);
    forall board, k
      ensures RowId(board, k) in OldUpdates(after, now, days)
              <==> RowId(board, k) in OldUpdates(boards, now, days) - us
    {
      if board in boards {
        VictimsLeft(boards[board], now, days, On(us, board), On(es, board));
        assert k in On(us, board) <==> RowId(board, k) in us;
      }
    }
    SameRows(OldUpdates(after, now, days), OldUpdates(boards, now, days) - us);
  }

  lemma SameRows(a: set<RowId>, b: set<RowId>)
    requires forall board, k :: RowId(board, k) in a <==> RowId(board, k) in b
    ensures a == b
  {
    forall row
      ensures row in a <==> row in b
    {
      assert row == RowId(row.board, row.seqNo);
    }
  }

  lemma AgedLeft(boards: Boards, now: int, days: int, us: set<RowId>, es: set<RowId>)
    requires us <= OldUpdates(boards, now, days)
    requires es <= OldEvents(DropUpdates(boards, now, days, us), now, days)
    ensures es <= Aged(boards, now, days)
    ensures Aged(Prune(boards, now, days, us, es), now, days) == Aged(boards, now, days) - es
  {
    var after := Prune(boards, now, days, us, es);
    forall board, k
      ensures RowId(board, k) in es ==> RowId(board, k) in Aged(boards, now, days)
      ensures RowId(board, k) in Aged(after, now, days)
              <==> RowId(board, k) in Aged(boards, now, days) - es
    {
      if board in boards {
        var t := boards[board];
        var mid := PruneBatch(t, now, days, On(us, board), {});
        BarrierFixed(t, now, days, On(us, board), {});
        BarrierFixed(t, now, days, On(us, board), On(es, board));
        BatchRows(t, now, days, On(us, board), On(es, board));
        assert DropUpdates(boards, now, days, us)[board] == mid;
        assert RowId(board, k) in es ==> k in EventVictims(mid, now, days);
        assert k in On(es, board) <==> RowId(board, k) in es;
      }
    }
    forall row | row in es
      ensures row in Aged(boards, now, days)
    {
      assert row == RowId(row.board, row.seqNo);
    }
    SameRows(Aged(after, now, days), Aged(boards, now, days) - es);
  }

  /** Every batch pays for itself: the remaining work falls by exactly the rows it deleted. */
  lemma WorkFalls(boards: Boards, now: int, days: int, us: set<RowId>, es: set<RowId>)
    requires us <= OldUpdates(boards, now, days)
    requires es <= OldEvents(DropUpdates(boards, now, days, us), now, days)
    ensures Work(Prune(boards, now, days, us, es), now, days) + |us| + |es| == Work(boards, now, days)
  {
    UpdatesLeft(boards, now, days, us, es);
    AgedLeft(boards, now, days, us, es);
    SizeOfRest(OldUpdates(boards, now, days), us);
    SizeOfRest(Aged(boards, now, days), es);
  }

  lemma SizeOfRest(a: set<RowId>, b: set<RowId>)
    requires b <= a
    ensures |a - b| + |b| == |a|
  {
    assert a == (a - b) + b;
  }

  /** A full batch that deletes nothing has nothing left to delete, and conversely. */
  lemma EmptyMeansDone(boards: Boards, now: int, days: int, limit: int, us: set<RowId>, es: set<RowId>)
    requires Batch(boards, now, days, limit, us, es, true)
    ensures us == {} && es == {} <==> OneShotAll(boards, now, days) == boards
  {
    if us == {} && es == {} {
      forall board | board in boards
        ensures OneShot(boards[board], now, days) == boards[board]
      {
        var t := boards[board];
        assert PruneBatch(t, now, days, {}, {}) == t by {
          BatchRows(t, now, days, {}, {});
          assert PruneBatch(t, now, days, {}, {}).updates == t.updates;
          assert PruneBatch(t, now, days, {}, {}).events == t.events;
        }
        assert On(us, board) == {};
        assert DropUpdates(boards, now, days, us)[board] == t;
        assert forall k | k in UpdateVictims(t, now, days) :: RowId(board, k) in OldUpdates(boards, now, days);
        assert forall k | k in EventVictims(t, now, days) ::
                 RowId(board, k) in OldEvents(DropUpdates(boards, now, days, us), now, days);
        NothingEligible(t, now, days);
      }
    } else {
      FixedPointHasNoVictims(boards, now, days, us, es);
    }
  }

  lemma FixedPointHasNoVictims(boards: Boards, now: int, days: int, us: set<RowId>, es: set<RowId>)
    requires us <= OldUpdates(boards, now, days)
    requires es <= OldEvents(DropUpdates(boards, now, days, us), now, days)
    requires us != {} || es != {}
    ensures OneShotAll(boards, now, days) != boards
  {
    if us != {} {
      var row :| row in us;
      OneShotRows(boards[row.board], now, days);
      assert row.seqNo in boards[row.board].updates && row.seqNo !in OneShot(boards[row.board], now, days).updates;
    } else {
      var row :| row in es;
      var t := boards[row.board];
      assert On(us, row.board) == {};
      BarrierFixed(t, now, days, {}, {});
      BatchRows(t, now, days, {}, {});
      OneShotRows(t, now, days);
      assert row.seqNo in t.events && row.seqNo !in OneShot(t, now, days).events;
    }
    assert exists board :: board in boards && OneShot(boards[board], now, days) != boards[board];
  }

  /** One committed retention transaction. */
  datatype Deletion = Deletion(limit: int, us: set<RowId>, es: set<RowId>, full: bool)

  ghost predicate Schedule(boards: Boards, now: int, days: int, batches: seq<Deletion>)
    decreases |batches|
  {
    batches == [] ||
    (&& Batch(boards, now, days, batches[0].limit, batches[0].us, batches[0].es, batches[0].full)
     && Schedule(Prune(boards, now, days, batches[0].us, batches[0].es), now, days, batches[1..]))
  }

  ghost function AfterAll(boards: Boards, now: int, days: int, batches: seq<Deletion>): Boards
    decreases |batches|
  {
    if batches == [] then boards
    else AfterAll(Prune(boards, now, days, batches[0].us, batches[0].es), now, days, batches[1..])
  }

  ghost function Deleted(batches: seq<Deletion>): nat {
    if batches == [] then 0 else |batches[0].us| + |batches[0].es| + Deleted(batches[1..])
  }

  /** Any schedule of bounded batches, with whatever limits, victim order and skipped rows,
      deletes in total at most the eligible rows, so at most that many of its batches are not
      empty; and it leaves the one-shot result where it was. */
  lemma {:induction false} ScheduleBounded(boards: Boards, now: int, days: int, batches: seq<Deletion>)
    requires Schedule(boards, now, days, batches)
    ensures Deleted(batches) + Work(AfterAll(boards, now, days, batches), now, days) == Work(boards, now, days)
    ensures OneShotAll(AfterAll(boards, now, days, batches), now, days) == OneShotAll(boards, now, days)
    decreases |batches|
  {
    if batches != [] {
      var d := batches[0];
      WorkFalls(boards, now, days, d.us, d.es);
      AbsorbsAll(boards, now, days, d.us, d.es);
      ScheduleBounded(Prune(boards, now, days, d.us, d.es), now, days, batches[1..]);
    }
  }

  /** Once a full batch finds nothing, the tables are those of one unbounded retention. */
  lemma {:induction false} BatchesRefineOneShot(boards: Boards, now: int, days: int, batches: seq<Deletion>, last: Deletion)
    requires Schedule(boards, now, days, batches)
    requires var reached := AfterAll(boards, now, days, batches);
             Batch(reached, now, days, last.limit, last.us, last.es, true) && last.us == {} && last.es == {}
    ensures AfterAll(boards, now, days, batches) == OneShotAll(boards, now, days)
  {
    ScheduleBounded(boards, now, days, batches);
    EmptyMeansDone(AfterAll(boards, now, days, batches), now, days, last.limit, last.us, last.es);
  }
}
