/** Catch-up requests keep the invariant, and every run does. */
module JournalClients {
  import opened Wrappers
  import opened IntSets
  import opened Replay
  import opened CanonicalTables
  import opened JournalProtocol
  import opened JournalInvariant
  import opened JournalSteps
  import opened JournalCommit
  import opened JournalCompaction

  lemma ClientPut(e: Engine, b: Base, s: System, c: nat, client: Client)
    requires Inv(e, b, s) && ClientOk(e, b, s.t, s.history, client)
    ensures Inv(e, b, s.(clients := s.clients[c := client]))
  {
  }

  lemma BootstrapKeeps(e: Engine, b: Base, s: System, c: nat, through: int)
    requires Inv(e, b, s)
    ensures Inv(e, b, DoBootstrap(e, s, c, through))
  {
    StartIsDoc(e, b, s.t, s.history, through);
    var (start, doc) := StartPoint(s.t, b, through);
    ClientPut(e, b, s, c, Holding(doc, start, true));
  }

  lemma ReadHeadKeeps(e: Engine, b: Base, s: System, c: nat)
    requires Inv(e, b, s)
    ensures Inv(e, b, DoReadHead(s, c))
  {
    if Serving(s.t) && c in s.clients && s.clients[c].Holding? {
      var h := s.clients[c];
      assert ClientOk(e, b, s.t, s.history, h);
      ClientPut(e, b, s, c, HeadRead(h.doc, h.cursor, h.clean, s.t.head.value.processedSeq, Checkpoints(s.t, b)));
    }
  }

  lemma FencedClientOk(e: Engine, b: Base, t: Tables, history: map<int, Bytes>, q: Client)
    requires Bounds(b, t, history) && Sound(e, b, t, history)
    requires ClientOk(e, b, t, history, q) && q.HeadRead?
    requires StartPoint(t, b, q.head).0 <= q.cursor <= q.head
    ensures ClientOk(e, b, t, history, BaseChosen(q.doc, q.cursor, q.clean, q.head, q.known))
  {
    StartIsDoc(e, b, t, history, q.head);
  }

  lemma ChooseBaseKeeps(e: Engine, b: Base, s: System, c: nat, generation: Option<int>)
    requires Inv(e, b, s)
    ensures Inv(e, b, DoChooseBase(e, s, c, generation))
  {
    if c in s.clients && s.clients[c].HeadRead? {
      var q := s.clients[c];
      var (start, _) := StartPoint(s.t, b, q.head);
      ClientPut(e, b, s, c, RebootstrapRequired);
      if start <= q.cursor <= q.head {
        FencedClientOk(e, b, s.t, s.history, q);
        ClientPut(e, b, s, c, BaseChosen(q.doc, q.cursor, q.clean, q.head, q.known));
      }
    }
  }

  /** With at most one new checkpoint since the head was read, the floor is still at or below
      the cursor that passed the fence. */
  lemma FenceStillHolds(t: Tables, b: Base, known: set<int>, cursor: int)
    requires known <= Checkpoints(t, b) && |Checkpoints(t, b) - known| <= 1
    requires forall k | k in known :: k <= cursor
    requires b.baseSeq <= cursor
    ensures Floor(t, b) <= cursor
  {
    if |Checkpoints(t, b)| >= 2 {
      SecondAboveNeedsTwo(Checkpoints(t, b), known, cursor);
    }
  }

  /** A response served at or above the floor is exactly the history up to its next cursor. */
  lemma ServedPageExact(e: Engine, b: Base, t: Tables, history: map<int, Bytes>, since: int, head: int, limit: nat)
    requires TablesOk(e, b, t, history) && Floor(t, b) <= since <= head && 1 <= limit
    ensures var page := ServePage(t, b.generation, since, head, limit);
            && page.rows == RowsOf(history, since, page.next)
            && since <= page.next <= head
            && (page.hasMore ==> since < page.next)
            && (!page.hasMore ==> page.next == head)
            && |page.rows| <= limit
  {
    SurvivesAbove(e, b, t, history, since, head);
    RowsFrame(Journal(t.updates, b.generation), history, since, head);
    PageOfRows(t, b.generation, history, since, head, limit);
  }

  lemma PageOfRows(t: Tables, generation: int, journal: map<int, Bytes>, since: int, head: int, limit: nat)
    requires since <= head && 1 <= limit
    requires RowsOf(Journal(t.updates, generation), since, head) == RowsOf(journal, since, head)
    ensures var page := ServePage(t, generation, since, head, limit);
            && page.rows == RowsOf(journal, since, page.next)
            && since <= page.next <= head
            && (page.hasMore ==> since < page.next)
            && (!page.hasMore ==> page.next == head)
            && |page.rows| <= limit
  {
    var all := RowsOf(journal, since, head);
    if |all| > limit {
      RowsPrefix(journal, since, head, limit);
      var rows := ListUpdatesPage(t, since, head, generation, limit + 1);
      assert rows[..limit] == all[..limit];
      assert rows[limit - 1] == all[limit - 1];
    }
  }

  lemma ServedPageBounds(t: Tables, generation: int, since: int, head: int, limit: nat)
    requires since <= head && 1 <= limit
    ensures var page := ServePage(t, generation, since, head, limit); since <= page.next <= head
  {
    RowsExact(Journal(t.updates, generation), since, head);
  }

  lemma PagedClientOk(e: Engine, b: Base, t: Tables, history: map<int, Bytes>, q: Client, limit: nat, atMostOneNew: bool)
    requires TablesOk(e, b, t, history) && ClientOk(e, b, t, history, q) && q.BaseChosen? && 1 <= limit
    requires atMostOneNew ==> |Checkpoints(t, b) - q.known| <= 1
    ensures ClientOk(e, b, t, history, Received(e, t, b.generation, q, limit, atMostOneNew))
  {
    var page := ServePage(t, b.generation, q.cursor, q.head, limit);
    ServedPageBounds(t, b.generation, q.cursor, q.head, limit);
    if q.clean && atMostOneNew {
      FenceStillHolds(t, b, q.known, q.cursor);
      ServedPageExact(e, b, t, history, q.cursor, q.head, limit);
      ReplayIsFold(e, Some(q.doc), history, q.cursor, page.next);
      DocSplit(e, b, history, q.cursor, page.next);
    }
  }

  lemma ReadPageKeeps(e: Engine, b: Base, s: System, c: nat, limit: Option<int>)
    requires Inv(e, b, s)
    ensures Inv(e, b, DoReadPage(e, s, c, limit))
  {
    if c in s.clients && s.clients[c].BaseChosen? {
      var q := s.clients[c];
      assert ClientOk(e, b, s.t, s.history, q);
      PagedClientOk(e, b, s.t, s.history, q, PageLimit(limit), AtMostOneNew(s, q.known));
      var q' := Received(e, s.t, b.generation, q, PageLimit(limit), AtMostOneNew(s, q.known));
      ClientPut(e, b, s, c, q');
      assert DoReadPage(e, s, c, limit) == s.(clients := s.clients[c := q']);
    }
  }

  // ---- all steps, all runs ----

  lemma TickKeeps(e: Engine, b: Base, s: System, dt: nat)
    requires Inv(e, b, s)
    ensures Inv(e, b, s.(clock := s.clock + dt))
  {
  }

  lemma StepKeeps(e: Engine, b: Base, s: System, step: Step)
    requires Inv(e, b, s)
    ensures Inv(e, b, Do(e, s, step))
  {
    if OwnerStep(step) {
      OwnerStepKeeps(e, b, s, step);
    } else if CompactorStep(step) {
      CompactorStepKeeps(e, b, s, step);
    } else if ClientStep(step) {
      ClientStepKeeps(e, b, s, step);
    } else if step.Prune? {
      PruneStepKeeps(e, b, s, step);
    } else {
      OperatorStepKeeps(e, b, s, step);
    }
  }

  lemma PruneStepKeeps(e: Engine, b: Base, s: System, step: Step)
    requires Inv(e, b, s) && step.Prune?
    ensures Inv(e, b, Do(e, s, step))
  {
    PruneKeeps(e, b, s, PruneBatch(s.t, s.clock, step.days, step.updateRows, step.eventRows),
               step.days, step.updateRows, step.eventRows);
  }

  lemma OperatorStepKeeps(e: Engine, b: Base, s: System, step: Step)
    requires Inv(e, b, s) && (step.SeedBase? || step.Quarantine? || step.Tick?)
    ensures Inv(e, b, Do(e, s, step))
  {
    match step
    case SeedBase(locked, candidate) => SeedKeeps(e, b, s, locked, candidate);
    case Quarantine => QuarantineKeeps(e, b, s);
    case Tick(dt) => TickKeeps(e, b, s, dt);
  }

  predicate CompactorStep(step: Step) {
    step.CompactChoose? || step.CompactVerify? || step.CompactStart? || step.CompactPage? || step.CompactPublish?
  }

  lemma CompactorStepKeeps(e: Engine, b: Base, s: System, step: Step)
    requires Inv(e, b, s) && CompactorStep(step)
    ensures Inv(e, b, Do(e, s, step))
  {
    match step
    case CompactChoose(c, minUpdates, minBytes) => CompactChooseKeeps(e, b, s, c, minUpdates, minBytes);
    case CompactVerify(c) => CompactVerifyKeeps(e, b, s, c);
    case CompactStart(c) => CompactStartKeeps(e, b, s, c);
    case CompactPage(c) => CompactPageKeeps(e, b, s, c);
    case CompactPublish(c) => CompactPublishKeeps(e, b, s, c);
  }

  predicate ClientStep(step: Step) {
    step.Bootstrap? || step.ReadHead? || step.ChooseBase? || step.ReadPage?
  }

  lemma ClientStepKeeps(e: Engine, b: Base, s: System, step: Step)
    requires Inv(e, b, s) && ClientStep(step)
    ensures Inv(e, b, Do(e, s, step))
  {
    match step
    case Bootstrap(c, through) => BootstrapKeeps(e, b, s, c, through);
    case ReadHead(c) => ReadHeadKeeps(e, b, s, c);
    case ChooseBase(c, generation) => ChooseBaseKeeps(e, b, s, c, generation);
    case ReadPage(c, limit) => ReadPageKeeps(e, b, s, c, limit);
  }

  predicate OwnerStep(step: Step) {
    step.ActivateBegin? || step.ActivateSelect? || step.ActivateBatch? || step.ActivateReplay? || step.ActivateFinish?
    || step.Evict? || step.Commit?
  }

  lemma OwnerStepKeeps(e: Engine, b: Base, s: System, step: Step)
    requires Inv(e, b, s) && OwnerStep(step)
    ensures Inv(e, b, Do(e, s, step))
  {
    match step
    case ActivateBegin(o, takeover) => ActivateBeginKeeps(e, b, s, o, takeover);
    case ActivateSelect(o) => ActivateSelectKeeps(e, b, s, o);
    case ActivateBatch(o) => ActivateBatchKeeps(e, b, s, o);
    case ActivateReplay(o) => ActivateReplayKeeps(e, b, s, o);
    case ActivateFinish(o) => ActivateFinishKeeps(e, b, s, o);
    case Evict(o) => OwnerDrop(e, b, s, o);
    case Commit(o, y, cid, id) => CommitKeeps(e, b, s, o, y, cid, id);
  }

  lemma InitInv(e: Engine, b: Base, s: System)
    requires Init(e, b, s)
    ensures Inv(e, b, s)
  {
    forall k: int
      ensures DocAt(e, b, s.history, k).Some?
    {
      if b.baseSeq <= k {
        FoldGap(e, Some(b.stateUpdate), s.history, b.baseSeq, k);
      }
    }
    assert NewestEvent(b, s.t, s.history) by {
      if s.t.events.Keys != {} {
        MaxIs(s.t.events.Keys, b.baseSeq);
      }
    }
  }

  lemma {:induction false} RunKeeps(e: Engine, b: Base, s: System, steps: seq<Step>)
    requires Init(e, b, s)
    ensures Inv(e, b, Run(e, s, steps))
  {
    if steps == [] {
      InitInv(e, b, s);
    } else {
      RunKeeps(e, b, s, steps[..|steps| - 1]);
      StepKeeps(e, b, Run(e, s, steps[..|steps| - 1]), steps[|steps| - 1]);
    }
  }

  lemma ReachableInv(e: Engine, b: Base, s: System)
    requires Reachable(e, b, s)
    ensures Inv(e, b, s)
  {
    var init, steps :| Init(e, b, init) && s == Run(e, init, steps);
    RunKeeps(e, b, init, steps);
  }
}
