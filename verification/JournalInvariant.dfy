/** The inductive invariant of the journal protocol, and the facts its parts give. */
module JournalInvariant {
  import opened Wrappers
  import opened IntSets
  import opened Replay
  import opened CanonicalTables
  import opened JournalProtocol

  /** The document at revision `k`: the base with the never-pruned history replayed to `k`. */
  function DocAt(e: Engine, b: Base, history: map<int, Bytes>, k: int): Option<Bytes> {
    Fold(e, Some(b.stateUpdate), history, b.baseSeq, k)
  }

  /** The newest committed revision. */
  ghost function Watermark(b: Base, history: map<int, Bytes>): int {
    if history.Keys == {} then b.baseSeq else MaxOf(history.Keys)
  }

  /** Rows above the floor are never pruned. */
  ghost function Floor(t: Tables, b: Base): int {
    if |Checkpoints(t, b)| >= 2 then SecondOf(Checkpoints(t, b)) else b.baseSeq
  }

  // ---- tables ----

  ghost predicate Bounds(b: Base, t: Tables, history: map<int, Bytes>) {
    && t.base == Some(b) && 0 <= b.baseSeq < t.nextEventSeq
    && (forall k | k in history :: b.baseSeq < k < t.nextEventSeq)
    && (forall k | k in t.updates :: k < t.nextEventSeq)
    && (forall k | k in t.events :: k < t.nextEventSeq)
  }

  /** The history decodes: replay never fails at any revision. */
  ghost predicate Decodes(e: Engine, b: Base, history: map<int, Bytes>) {
    forall k: int :: DocAt(e, b, history, k).Some?
  }

  /** Surviving rows are history rows, and everything above the floor survives. */
  ghost predicate Content(b: Base, t: Tables, history: map<int, Bytes>) {
    && (forall k | k in t.updates && b.baseSeq < k ::
          k in history && t.updates[k].yupdate == history[k] && t.updates[k].generation == b.generation)
    && (forall k | k in t.events && b.baseSeq < k :: k in history)
    && (forall k | k in history && Floor(t, b) < k :: k in t.updates && k in t.events)
  }

  /** Every linked journal row still has its event. */
  ghost predicate Paired(t: Tables) {
    forall k | k in t.updates && t.updates[k].eventId.Some? ::
      k in t.events && t.events[k].id == t.updates[k].eventId.value
  }

  /** Every checkpoint of the lineage is the history replayed to its sequence number. */
  ghost predicate Sound(e: Engine, b: Base, t: Tables, history: map<int, Bytes>) {
    forall k | k in Checkpoints(t, b) ::
      && b.baseSeq <= k <= Watermark(b, history)
      && var snap := t.snapshots[SnapshotKey(b.clientId, b.generation, k)];
      && Some(snap.stateUpdate) == DocAt(e, b, history, k)
      && Intact(e, snap)
  }

  ghost predicate HeadOk(b: Base, t: Tables, history: map<int, Bytes>) {
    && (t.head.None? ==> history.Keys == {} && Checkpoints(t, b) == {})
    && (t.head.Some? ==>
          && t.head.value.generation == b.generation && 1 <= t.head.value.epoch
          && t.head.value.processedSeq <= Watermark(b, history)
          && (t.head.value.state == Ready || history.Keys != {} ==>
                t.head.value.processedSeq == Watermark(b, history)))
  }

  ghost predicate NewestEvent(b: Base, t: Tables, history: map<int, Bytes>) {
    if t.events.Keys == {} then history.Keys == {} else MaxOf(t.events.Keys) == Watermark(b, history)
  }

  /** The stored projection is the projection of the newest document, written by the newest
      commit. */
  ghost predicate Projected(e: Engine, b: Base, t: Tables, history: map<int, Bytes>) {
    && (t.assetHead.None? <==> history.Keys == {})
    && (t.assetHead.Some? ==>
          && t.assetHead.value.seqNo == Watermark(b, history) && t.assetHead.value.generation == b.generation
          && DocAt(e, b, history, Watermark(b, history)).Some?
          && var refs := e.project(DocAt(e, b, history, Watermark(b, history)).value);
          && t.assetHead.value.ready == !refs.unstable
          && t.assetRefs == if refs.unstable then {} else RefsOf(refs))
  }

  ghost predicate TablesOk(e: Engine, b: Base, t: Tables, history: map<int, Bytes>) {
    && Bounds(b, t, history) && Decodes(e, b, history) && Content(b, t, history) && Paired(t)
    && Sound(e, b, t, history) && HeadOk(b, t, history) && NewestEvent(b, t, history)
    && Projected(e, b, t, history)
  }

  // ---- jobs in flight ----

  /** A scan from checkpoint `start` towards `target` cannot lose rows to pruning: every other
      checkpoint is at or below its start, or is the target itself. */
  ghost predicate ScanSafe(t: Tables, b: Base, start: int, target: int) {
    b.baseSeq <= start && forall k | k in Checkpoints(t, b) :: k <= start || k == target
  }

  /** The listed events are the next history rows, in order. */
  ghost predicate PendingExact(history: map<int, Bytes>, cursor: int, pending: seq<int>) {
    && (forall i | 0 <= i < |pending| :: pending[i] in history)
    && (forall k | k in history && cursor < k && pending != [] && k <= pending[|pending| - 1] :: k in pending)
  }

  ghost predicate PendingOrdered(cursor: int, target: int, pending: seq<int>) {
    && (forall i | 0 <= i < |pending| :: cursor < pending[i] <= target)
    && (forall i, j | 0 <= i < j < |pending| :: pending[i] < pending[j])
  }

  /** An owner whose target is still the watermark holds the true document at its cursor. An
      owner overtaken by a commit promises nothing, and can never commit. */
  ghost predicate OwnerOk(e: Engine, b: Base, t: Tables, history: map<int, Bytes>, o: Owner) {
    && t.head.Some? && o.epoch <= t.head.value.epoch
    && match o
       case Resident(_, doc, cursor) =>
         && cursor <= Watermark(b, history)
         && (cursor == Watermark(b, history) ==> Some(doc) == DocAt(e, b, history, cursor))
       case Loading(epoch, target, reused) =>
         && b.baseSeq <= target <= Watermark(b, history)
         && (!reused && epoch == t.head.value.epoch && t.head.value.state == Activating ==> target == Watermark(b, history))
       case Replaying(epoch, target, reused, start, doc, cursor, pending) =>
         && cursor <= target <= Watermark(b, history)
         && PendingOrdered(cursor, target, pending)
         && (!reused && epoch == t.head.value.epoch && t.head.value.state == Activating ==> target == Watermark(b, history))
         && (target == Watermark(b, history) ==>
               && ScanSafe(t, b, start, target) && start <= cursor
               && Some(doc) == DocAt(e, b, history, cursor)
               && PendingExact(history, cursor, pending))
  }

  ghost predicate CompactorOk(e: Engine, b: Base, t: Tables, history: map<int, Bytes>, c: Compactor) {
    && c.candidate.generation == b.generation && c.candidate.clientId == b.clientId
    && c.candidate.processedSeq <= Watermark(b, history)
    && (c.Tailing? && c.candidate.processedSeq == Watermark(b, history) ==>
          && ScanSafe(t, b, c.start, c.candidate.processedSeq)
          && c.start <= c.cursor <= c.candidate.processedSeq
          && Some(c.startDoc) == DocAt(e, b, history, c.start)
          && c.tail == RowsOf(history, c.start, c.cursor)
          && (c.drained ==> forall k | c.cursor < k <= c.candidate.processedSeq :: k !in history))
  }

  ghost predicate ClientOk(e: Engine, b: Base, t: Tables, history: map<int, Bytes>, c: Client) {
    c.RebootstrapRequired? ||
    (&& b.baseSeq <= c.cursor <= Watermark(b, history)
     && (c.clean ==> Some(c.doc) == DocAt(e, b, history, c.cursor))
     && (!c.Holding? ==>
           && c.head <= Watermark(b, history) && c.known <= Checkpoints(t, b)
           && (forall k | k in c.known :: k <= c.head))
     && (c.BaseChosen? ==> c.cursor <= c.head && forall k | k in c.known :: k <= c.cursor))
  }

  /** The successful advances form one chain, and no epoch was readied twice. */
  ghost predicate LogOk(b: Base, t: Tables, history: map<int, Bytes>, advances: seq<Advance>, readied: seq<int>) {
    && (forall i | 0 <= i < |advances| :: advances[i].expected < advances[i].reached)
    && (forall i | 0 < i < |advances| :: advances[i].expected == advances[i - 1].reached)
    && (forall i, j | 0 <= i < j < |advances| :: advances[i].epoch <= advances[j].epoch)
    && (advances != [] ==>
          && advances[|advances| - 1].reached == Watermark(b, history)
          && t.head.Some? && advances[|advances| - 1].epoch <= t.head.value.epoch)
    && (advances == [] ==> Watermark(b, history) == b.baseSeq)
    && (forall i, j | 0 <= i < j < |readied| :: readied[i] < readied[j])
    && (forall i | 0 <= i < |readied| ::
          && t.head.Some? && readied[i] <= t.head.value.epoch
          && (t.head.value.state == Activating ==> readied[i] < t.head.value.epoch))
  }

  ghost predicate OwnersOk(e: Engine, b: Base, s: System) {
    forall o | o in s.owners :: OwnerOk(e, b, s.t, s.history, s.owners[o])
  }

  ghost predicate CompactorsOk(e: Engine, b: Base, s: System) {
    forall c | c in s.compactors :: CompactorOk(e, b, s.t, s.history, s.compactors[c])
  }

  ghost predicate ClientsOk(e: Engine, b: Base, s: System) {
    forall c | c in s.clients :: ClientOk(e, b, s.t, s.history, s.clients[c])
  }

  ghost predicate Inv(e: Engine, b: Base, s: System) {
    && TablesOk(e, b, s.t, s.history) && OwnersOk(e, b, s) && CompactorsOk(e, b, s) && ClientsOk(e, b, s)
    && LogOk(b, s.t, s.history, s.advances, s.readied)
  }

  // ---- consequences used by the steps ----

  lemma WatermarkBounds(b: Base, t: Tables, history: map<int, Bytes>)
    requires Bounds(b, t, history)
    ensures b.baseSeq <= Watermark(b, history) < t.nextEventSeq
    ensures forall k | k in history :: k <= Watermark(b, history)
  {
  }

  lemma FloorAboveBase(e: Engine, b: Base, t: Tables, history: map<int, Bytes>)
    requires Sound(e, b, t, history)
    ensures b.baseSeq <= Floor(t, b)
    ensures |Checkpoints(t, b)| >= 2 ==> Floor(t, b) < Watermark(b, history) && history.Keys != {}
  {
    if |Checkpoints(t, b)| >= 2 {
      assert MaxOf(Checkpoints(t, b)) <= Watermark(b, history);
    }
  }

  /** A safe scan starts at or above the floor. */
  lemma ScanAboveFloor(t: Tables, b: Base, start: int, target: int)
    requires ScanSafe(t, b, start, target)
    ensures Floor(t, b) <= start
  {
    if |Checkpoints(t, b)| >= 2 {
      var c := Checkpoints(t, b);
      assert MaxOf(c) in c && SecondOf(c) in c && SecondOf(c) != MaxOf(c);
    }
  }

  /** Above the floor the surviving journal and the history agree. */
  lemma SurvivesAbove(e: Engine, b: Base, t: Tables, history: map<int, Bytes>, lo: int, hi: int)
    requires Content(b, t, history) && Sound(e, b, t, history)
    requires Floor(t, b) <= lo
    ensures Agree(Journal(t.updates, b.generation), history, lo, hi)
  {
    FloorAboveBase(e, b, t, history);
  }

  lemma DocSplit(e: Engine, b: Base, history: map<int, Bytes>, mid: int, k: int)
    requires b.baseSeq <= mid <= k
    ensures DocAt(e, b, history, k) == Fold(e, DocAt(e, b, history, mid), history, mid, k)
  {
    FoldSplit(e, Some(b.stateUpdate), history, b.baseSeq, mid, k);
  }

  /** The start point of a read at `through` is the document at its revision. */
  lemma StartIsDoc(e: Engine, b: Base, t: Tables, history: map<int, Bytes>, through: int)
    requires Bounds(b, t, history) && Sound(e, b, t, history)
    ensures var (start, doc) := StartPoint(t, b, through);
            && b.baseSeq <= start && Some(doc) == DocAt(e, b, history, start)
            && (start <= through || start == b.baseSeq)
            && (forall k | k in Checkpoints(t, b) && k <= through :: k <= start)
            && start <= Watermark(b, history)
    ensures StartIntact(e, t, b, through)
  {
  }
}
