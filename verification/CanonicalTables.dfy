/** The canonical tables of one board, and what each database primitive does to them.

    Every function here is one SQL statement or one transaction: it reads one state of the
    tables and gives the next. Row versions, locks and isolation are not modelled; a
    transaction is one atomic step. */
module CanonicalTables {
  import opened Wrappers
  import opened IntSets
  import opened Replay

  const DAY: int := 86_400

  datatype CanonicalState = Activating | Ready | Quarantined

  /** `board_yrs_canonical_bases` */
  datatype Base = Base(stateUpdate: Bytes, baseSeq: int, clientId: int, generation: int, abandoned: bool)

  /** `board_yrs_heads` */
  datatype Head = Head(processedSeq: int, generation: int, epoch: int, state: CanonicalState)

  /** `board_yrs_updates`, keyed by sequence number */
  datatype UpdateRow = UpdateRow(
    eventId: Option<nat>, clientEventId: string, generation: int, yupdate: Bytes, createdAt: int)

  /** `board_events`, keyed by sequence number */
  datatype EventRow = EventRow(id: nat, createdAt: int)

  /** `board_yrs_snapshots`: primary key and content */
  datatype SnapshotKey = SnapshotKey(clientId: int, generation: int, seqNo: int)
  datatype Snapshot = Snapshot(stateUpdate: Bytes, sha256: Bytes, outputBytes: nat)

  /** The row a compaction writes for a document. */
  function Encoded(e: Engine, doc: Bytes): Snapshot {
    Snapshot(doc, e.digest(doc), |doc|)
  }

  /** What every reader demands of a checkpoint before using it: hash, length and reload. */
  predicate Intact(e: Engine, snapshot: Snapshot) {
    && e.digest(snapshot.stateUpdate) == snapshot.sha256
    && snapshot.outputBytes == |snapshot.stateUpdate|
    && e.reloads(snapshot.stateUpdate)
  }

  /** `board_yrs_asset_heads` and `board_yrs_asset_refs` */
  datatype AssetHead = AssetHead(seqNo: int, generation: int, ready: bool)
  datatype AssetRef = AssetRef(kind: string, stableRef: string)

  datatype Tables = Tables(
    base: Option<Base>,
    head: Option<Head>,
    nextEventSeq: int,
    updates: map<int, UpdateRow>,
    events: map<int, EventRow>,
    snapshots: map<SnapshotKey, Snapshot>,
    assetHead: Option<AssetHead>,
    assetRefs: set<AssetRef>)

  datatype DbError = UniqueViolation | SnapshotCollision | StaleRevision | MissingBase | Abandoned | QuarantinedBoard

  // ---- canonical base ----

  /** Insert-or-replace of the base, only if the row is still the `expected` one. */
  function UpsertBaseCas(t: Tables, locked: bool, candidate: Base, expected: Option<(int, int)>): (r: (Tables, bool)) {
    var current := match t.base case None => None case Some(b) => Some((b.baseSeq, b.generation));
    if !locked || current != expected then (t, false)
    else (t.(base := Some(candidate.(abandoned := false))), true)
  }

  // ---- head: lifecycle and watermark ----

  function BeginActivation(t: Tables, generation: int): (r: (Tables, Head)) {
    var head := match t.head
      case None => Head(0, generation, 1, Activating)
      case Some(h) => Head(h.processedSeq, generation, h.epoch + 1, Activating);
    (t.(head := Some(head)), head)
  }

  function MarkReady(t: Tables, expectedEpoch: int, processedSeq: int): (r: (Tables, bool)) {
    if t.head.Some? && t.head.value.epoch == expectedEpoch && t.head.value.state == Activating then
      (t.(head := Some(t.head.value.(state := Ready, processedSeq := processedSeq))), true)
    else (t, false)
  }

  function AdvanceProcessedSeq(t: Tables, expectedEpoch: int, expectedSeq: int, newSeq: int): (r: (Tables, bool)) {
    if t.head.Some? && t.head.value.epoch == expectedEpoch && t.head.value.processedSeq == expectedSeq
       && t.head.value.state == Ready then
      (t.(head := Some(t.head.value.(processedSeq := newSeq))), true)
    else (t, false)
  }

  // ---- events and updates ----

  function ReserveNextEventSeq(t: Tables): (r: (Tables, int)) {
    (t.(nextEventSeq := t.nextEventSeq + 1), t.nextEventSeq)
  }

  predicate EventIdUsed(t: Tables, id: nat) {
    exists k | k in t.events :: t.events[k].id == id
  }

  predicate ClientEventIdUsed(t: Tables, clientEventId: string) {
    exists k | k in t.updates :: t.updates[k].clientEventId == clientEventId
  }

  function InsertEvent(t: Tables, seqNo: int, row: EventRow): (r: Result<Tables, DbError>) {
    if seqNo in t.events || EventIdUsed(t, row.id) then Failure(UniqueViolation)
    else Success(t.(events := t.events[seqNo := row]))
  }

  function InsertUpdate(t: Tables, seqNo: int, row: UpdateRow): (r: Result<Tables, DbError>) {
    if seqNo in t.updates || ClientEventIdUsed(t, row.clientEventId) then Failure(UniqueViolation)
    else Success(t.(updates := t.updates[seqNo := row]))
  }

  /** The journal rows one generation may read: sequence number to update bytes. */
  function Journal(updates: map<int, UpdateRow>, generation: int): map<int, Bytes> {
    map k | k in updates && updates[k].generation == generation :: updates[k].yupdate
  }

  function ListUpdatesPage(t: Tables, since: int, through: int, generation: int, limit: nat): (rows: seq<Row>) {
    var all := RowsOf(Journal(t.updates, generation), since, through);
    if |all| <= limit then all else all[..limit]
  }

  /** Ascending members of `keys` in the interval `(lo, hi]`. */
  function KeysIn(keys: set<int>, lo: int, hi: int): seq<int>
    decreases hi - lo
  {
    if hi <= lo then []
    else KeysIn(keys, lo, hi - 1) + if hi in keys then [hi] else []
  }

  lemma {:induction false} KeysExact(keys: set<int>, lo: int, hi: int)
    ensures forall i | 0 <= i < |KeysIn(keys, lo, hi)| :: lo < KeysIn(keys, lo, hi)[i] <= hi && KeysIn(keys, lo, hi)[i] in keys
    ensures forall i, j | 0 <= i < j < |KeysIn(keys, lo, hi)| :: KeysIn(keys, lo, hi)[i] < KeysIn(keys, lo, hi)[j]
    ensures forall k | lo < k <= hi && k in keys :: k in KeysIn(keys, lo, hi)
    decreases hi - lo
  {
    if lo < hi {
      KeysExact(keys, lo, hi - 1);
      var before, all := KeysIn(keys, lo, hi - 1), KeysIn(keys, lo, hi);
      forall k | lo < k <= hi && k in keys
        ensures k in all
      {
        if k == hi {
          assert all[|all| - 1] == hi;
        } else {
          assert k in before;
        }
      }
    }
  }

  lemma {:induction false} KeysSplit(keys: set<int>, lo: int, mid: int, hi: int)
    requires lo <= mid <= hi
    ensures KeysIn(keys, lo, hi) == KeysIn(keys, lo, mid) + KeysIn(keys, mid, hi)
    decreases hi - mid
  {
    if mid < hi {
      KeysSplit(keys, lo, mid, hi - 1);
    }
  }

  /** The first n members of an interval are the members of a shorter one. */
  lemma {:induction false} KeysPrefix(keys: set<int>, lo: int, hi: int, n: nat)
    requires 0 < n <= |KeysIn(keys, lo, hi)|
    ensures var next := KeysIn(keys, lo, hi)[n - 1]; lo < next <= hi && KeysIn(keys, lo, hi)[..n] == KeysIn(keys, lo, next)
    decreases hi - lo
  {
    if lo < hi {
      var before, all := KeysIn(keys, lo, hi - 1), KeysIn(keys, lo, hi);
      if n <= |before| {
        KeysPrefix(keys, lo, hi - 1, n);
        assert all[..n] == before[..n];
      } else {
        assert all[..n] == all && all[n - 1] == hi;
      }
    }
  }

  lemma {:induction false} KeysEmpty(keys: set<int>, lo: int, hi: int)
    requires forall k | lo < k <= hi :: k !in keys
    ensures KeysIn(keys, lo, hi) == []
    decreases hi - lo
  {
    if lo < hi {
      KeysEmpty(keys, lo, hi - 1);
    }
  }

  /** `seq > cursor ORDER BY seq LIMIT limit` over the events. */
  ghost function EventsSince(t: Tables, cursor: int, limit: nat): seq<int> {
    var all := KeysIn(t.events.Keys, cursor, ActivationHead(t, cursor));
    if |all| <= limit then all else all[..limit]
  }

  /** `COALESCE(MAX(seq), base_seq)` over the event table. */
  ghost function ActivationHead(t: Tables, baseSeq: int): int {
    if t.events.Keys == {} then baseSeq else MaxOf(t.events.Keys)
  }

  // ---- checkpoints ----

  /** Sequence numbers of the checkpoints in one writer lineage. */
  function Lineage(t: Tables, clientId: int, generation: int): set<int> {
    set key | key in t.snapshots.Keys && key.clientId == clientId && key.generation == generation :: key.seqNo
  }

  function Checkpoints(t: Tables, b: Base): set<int> {
    Lineage(t, b.clientId, b.generation)
  }

  lemma CheckpointKey(t: Tables, b: Base, k: int)
    ensures k in Checkpoints(t, b) <==> SnapshotKey(b.clientId, b.generation, k) in t.snapshots
  {
    if SnapshotKey(b.clientId, b.generation, k) in t.snapshots {
      assert SnapshotKey(b.clientId, b.generation, k) in t.snapshots.Keys;
    }
  }

  ghost function ReadLatestAtOrBefore(t: Tables, clientId: int, generation: int, through: int): (r: Option<(int, Snapshot)>)
    ensures r.Some? ==> r.value.0 in Lineage(t, clientId, generation) && r.value.0 <= through
    ensures r.Some? ==> SnapshotKey(clientId, generation, r.value.0) in t.snapshots
                        && r.value.1 == t.snapshots[SnapshotKey(clientId, generation, r.value.0)]
    ensures forall k | k in Lineage(t, clientId, generation) && k <= through :: r.Some? && k <= r.value.0
  {
    var below := set k | k in Lineage(t, clientId, generation) && k <= through;
    if below == {} then
      assert forall k | k in Lineage(t, clientId, generation) && k <= through :: k in below;
      None
    else
      var m := MaxOf(below);
      assert forall k | k in Lineage(t, clientId, generation) && k <= through :: k in below;
      Some((m, t.snapshots[SnapshotKey(clientId, generation, m)]))
  }

  function InsertSnapshot(t: Tables, key: SnapshotKey, snapshot: Snapshot): (r: (Tables, bool)) {
    if key in t.snapshots then (t, false) else (t.(snapshots := t.snapshots[key := snapshot]), true)
  }

  /** The stable head a compaction works from. */
  datatype Candidate = Candidate(processedSeq: int, generation: int, epoch: int, clientId: int)

  /** The head is still the one the compaction chose. */
  predicate HeadUnchanged(t: Tables, c: Candidate) {
    && t.head.Some? && t.head.value.state == Ready
    && t.head.value.processedSeq == c.processedSeq
    && t.head.value.generation == c.generation
    && t.head.value.epoch == c.epoch
  }

  function PublishSnapshotCas(t: Tables, c: Candidate, key: SnapshotKey, snapshot: Snapshot): (r: Result<(Tables, bool), DbError>) {
    if !HeadUnchanged(t, c) then Success((t, false))
    else
      var (after, inserted) := InsertSnapshot(t, key, snapshot);
      if !inserted && t.snapshots[key] != snapshot then Failure(SnapshotCollision)
      else Success((after, true))
  }

  /** Number and size of the journal rows past the newest checkpoint. */
  function TailBytes(rows: seq<Row>): nat {
    if rows == [] then 0 else |rows[0].yupdate| + TailBytes(rows[1..])
  }

  /** Whether `list_compaction_candidates` selects this board. */
  ghost predicate IsCandidate(t: Tables, minUpdates: int, minBytes: int) {
    && t.head.Some? && t.base.Some?
    && var h, b := t.head.value, t.base.value;
    && h.state == Ready && h.generation == b.generation && !b.abandoned
    && var newest := ReadLatestAtOrBefore(t, b.clientId, h.generation, h.processedSeq);
    && var from := if newest.Some? then newest.value.0 else b.baseSeq;
    && var tail := RowsOf(Journal(t.updates, h.generation), from, h.processedSeq);
    && (newest.None?
        || |tail| >= (if minUpdates < 1 then 1 else minUpdates)
        || TailBytes(tail) >= (if minBytes < 1 then 1 else minBytes))
  }

  // ---- retention ----

  function ClampDays(days: int): (r: int)
    ensures 7 <= r <= 3650
  {
    if days < 7 then 7 else if days > 3650 then 3650 else days
  }

  function ClampLimit(limit: int): (r: nat)
    ensures 1 <= r <= 10_000
  {
    if limit < 1 then 1 else if limit > 10_000 then 10_000 else limit
  }

  /** `created_at < NOW() - days` */
  predicate Expired(createdAt: int, now: int, days: int) {
    createdAt < now - ClampDays(days) * DAY
  }

  /** The retention barrier: the second-newest checkpoint of the active lineage, if the
      board has a ready head on its live base and at least two checkpoints. */
  ghost function Barrier(t: Tables): Option<int> {
    if t.base.Some? && t.head.Some? && !t.base.value.abandoned && t.head.value.state == Ready
       && t.head.value.generation == t.base.value.generation && |Checkpoints(t, t.base.value)| >= 2
    then Some(SecondOf(Checkpoints(t, t.base.value)))
    else None
  }

  ghost function UpdateVictims(t: Tables, now: int, days: int): set<int> {
    if Barrier(t).None? then {}
    else set k | k in t.updates.Keys && k <= Barrier(t).value
                 && t.updates[k].generation == t.base.value.generation
                 && Expired(t.updates[k].createdAt, now, days)
  }

  ghost function EventVictims(t: Tables, now: int, days: int): set<int> {
    if Barrier(t).None? then {}
    else set k | k in t.events.Keys && k <= Barrier(t).value
                 && Expired(t.events[k].createdAt, now, days) && k !in t.updates
  }

  /** One retention transaction. `us` and `es` are the rows it locked; the statements delete
      whatever eligible rows are among them. Events are examined after the journal deletions. */
  ghost function PruneBatch(t: Tables, now: int, days: int, us: set<int>, es: set<int>): Tables {
    var afterUpdates := t.(updates := t.updates - (us * UpdateVictims(t, now, days)));
    afterUpdates.(events := afterUpdates.events - (es * EventVictims(afterUpdates, now, days)))
  }

  // ---- asset projection ----

  function RefsOf(refs: AssetRefs): set<AssetRef> {
    (set k | k in refs.objectKeys :: AssetRef("object_key", k))
    + (set k | k in refs.pdfDocIds :: AssetRef("pdf_doc", k))
  }

  function ReplaceProjection(t: Tables, seqNo: int, generation: int, refs: AssetRefs): Tables {
    t.(assetRefs := if refs.unstable then {} else RefsOf(refs),
       assetHead := Some(AssetHead(seqNo, generation, !refs.unstable)))
  }

  predicate ProjectionFresh(t: Tables) {
    && t.assetHead.Some? && t.head.Some?
    && t.assetHead.value.ready && t.head.value.state == Ready
    && t.assetHead.value.seqNo == t.head.value.processedSeq
    && t.assetHead.value.generation == t.head.value.generation
  }

  function ReadIfFresh(t: Tables): (r: Option<(set<string>, set<string>)>) {
    if !ProjectionFresh(t) then None
    else if exists ref | ref in t.assetRefs :: ref.kind != "object_key" && ref.kind != "pdf_doc" then None
    else Some((set ref | ref in t.assetRefs && ref.kind == "object_key" :: ref.stableRef,
               set ref | ref in t.assetRefs && ref.kind == "pdf_doc" :: ref.stableRef))
  }

  // ---- the coordinator's transactions ----

  /** What a resident owner submits: the epoch and watermark it holds, and the commit. */
  datatype Submission = Submission(
    epoch: int, expectedSeq: int, generation: int,
    eventId: nat, clientEventId: string, yupdate: Bytes, refs: AssetRefs, now: int)

  /** Reserve a sequence number, insert the event and its update, advance the watermark and
      replace the projection; any failure rolls the whole transaction back. */
  function CommitTx(t: Tables, c: Submission): (r: Result<(Tables, int), DbError>) {
    var (reserved, seqNo) := ReserveNextEventSeq(t);
    match InsertEvent(reserved, seqNo, EventRow(c.eventId, c.now))
    case Failure(e) => Failure(e)
    case Success(withEvent) =>
      match InsertUpdate(withEvent, seqNo,
                         UpdateRow(Some(c.eventId), c.clientEventId, c.generation, c.yupdate, c.now))
      case Failure(e) => Failure(e)
      case Success(withUpdate) =>
        var (advanced, applied) := AdvanceProcessedSeq(withUpdate, c.epoch, c.expectedSeq, seqNo);
        if !applied then Failure(StaleRevision)
        else Success((ReplaceProjection(advanced, seqNo, c.generation, c.refs), seqNo))
  }

  datatype Activation = Activation(epoch: int, target: int, reused: bool)

  /** First activation transaction. An equivalent ready revision is reused unless the caller
      takes the board over; otherwise the epoch is bumped and the newest event becomes the
      revision to rebuild. */
  ghost function ActivateTx(t: Tables, takeover: bool): (r: Result<(Tables, Activation), DbError>) {
    if t.base.None? then Failure(MissingBase)
    else if t.base.value.abandoned then Failure(Abandoned)
    else if t.head.Some? && t.head.value.state == Quarantined then Failure(QuarantinedBoard)
    else
      var b := t.base.value;
      if !takeover && t.head.Some? && t.head.value.state == Ready
         && t.head.value.generation == b.generation && t.head.value.processedSeq >= b.baseSeq
      then Success((t, Activation(t.head.value.epoch, t.head.value.processedSeq, true)))
      else
        var (begun, head) := BeginActivation(t, b.generation);
        Success((begun, Activation(head.epoch, ActivationHead(t, b.baseSeq), false)))
  }

  datatype CompactionError = BarrierBeforeBase | TailOrder | ApplyTail | Reload

  predicate TailOrdered(rows: seq<Row>, start: int, target: int) {
    && (forall i | 0 <= i < |rows| :: start < rows[i].seqNo <= target)
    && (forall i, j | 0 <= i < j < |rows| :: rows[i].seqNo < rows[j].seqNo)
  }

  /** Rebuilds the document at `target` from a checkpoint and its ordered tail, and gives it only
      if what will be written loads again. */
  function CompactBinarySnapshot(e: Engine, start: int, doc: Bytes, target: int, tail: seq<Row>): (r: Result<Bytes, CompactionError>) {
    if target < start then Failure(BarrierBeforeBase)
    else if !TailOrdered(tail, start, target) then Failure(TailOrder)
    else match ReplayRows(e, Some(doc), tail)
         case None => Failure(ApplyTail)
         case Some(d) => if e.reloads(d) then Success(d) else Failure(Reload)
  }
}
