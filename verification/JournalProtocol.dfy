/** The journal protocol of one board as a step system.

    A state holds the database tables, a clock, and everything that is in flight: owners that
    are activating or resident, compactions between reading their head and publishing, and
    HTTP clients between the queries of one catch-up request. Every database query of those
    jobs is its own step, so commits, takeovers, other compactions and prunes may fall between
    any two of them.

    `history` is a ghost: every update ever committed, never pruned. `advances` and `readied`
    record the successful watermark advances and activations of the run.

    A step that is not enabled leaves the state unchanged, so every sequence of steps is a run. */
module JournalProtocol {
  import opened Wrappers
  import opened IntSets
  import opened Replay
  import opened CanonicalTables

  const CATCH_UP_BATCH: nat := 512
  const UPDATE_PAGE: nat := 1_000

  /** A board owner, from its first activation transaction to being resident. */
  datatype Owner =
    | Loading(epoch: int, target: int, reused: bool)
    | Replaying(epoch: int, target: int, reused: bool, start: int, doc: Bytes, cursor: int, pending: seq<int>)
    | Resident(epoch: int, doc: Bytes, cursor: int)

  /** A compaction of this board. */
  datatype Compactor =
    | Chosen(candidate: Candidate)
    | Verified(candidate: Candidate)
    | Tailing(candidate: Candidate, start: int, startDoc: Bytes, cursor: int, tail: seq<Row>, drained: bool)

  /** A catching-up client. `clean` records that each of its requests so far saw at most one
      new checkpoint between reading the head and reading its rows; `known` are the
      checkpoints that existed when the request read the head. */
  datatype Client =
    | Holding(doc: Bytes, cursor: int, clean: bool)
    | HeadRead(doc: Bytes, cursor: int, clean: bool, head: int, known: set<int>)
    | BaseChosen(doc: Bytes, cursor: int, clean: bool, head: int, known: set<int>)
    | RebootstrapRequired

  datatype Advance = Advance(epoch: int, expected: int, reached: int)

  datatype System = System(
    t: Tables, clock: int, history: map<int, Bytes>,
    owners: map<nat, Owner>, compactors: map<nat, Compactor>, clients: map<nat, Client>,
    advances: seq<Advance>, readied: seq<int>)

  datatype Step =
    | SeedBase(locked: bool, candidate: Base)
    | Quarantine
    | Tick(dt: nat)
    | ActivateBegin(owner: nat, takeover: bool)
    | ActivateSelect(owner: nat)
    | ActivateBatch(owner: nat)
    | ActivateReplay(owner: nat)
    | ActivateFinish(owner: nat)
    | Evict(owner: nat)
    | Commit(owner: nat, yupdate: Bytes, clientEventId: string, eventId: nat)
    | CompactChoose(compactor: nat, minUpdates: int, minBytes: int)
    | CompactVerify(compactor: nat)
    | CompactStart(compactor: nat)
    | CompactPage(compactor: nat)
    | CompactPublish(compactor: nat)
    | Prune(days: int, updateRows: set<int>, eventRows: set<int>)
    | Bootstrap(client: nat, through: int)
    | ReadHead(client: nat)
    | ChooseBase(client: nat, generation: Option<int>)
    | ReadPage(client: nat, limit: Option<int>)

  /** The checkpoint an already-read head selects, or the base row. */
  ghost function StartPoint(t: Tables, b: Base, through: int): (int, Bytes) {
    match ReadLatestAtOrBefore(t, b.clientId, b.generation, through)
    case None => (b.baseSeq, b.stateUpdate)
    case Some(found) => (found.0, found.1.stateUpdate)
  }

  /** The integrity checks on the selected checkpoint; the base row has none. */
  ghost predicate StartIntact(e: Engine, t: Tables, b: Base, through: int) {
    match ReadLatestAtOrBefore(t, b.clientId, b.generation, through)
    case None => true
    case Some(found) => Intact(e, found.1)
  }

  /** The generation the read path serves: live base, ready head, same generation. */
  predicate Serving(t: Tables) {
    && t.base.Some? && t.head.Some? && !t.base.value.abandoned
    && t.head.value.state == Ready && t.head.value.generation == t.base.value.generation
  }

  // ---- owners ----

  ghost function DoActivateBegin(s: System, o: nat, takeover: bool): System {
    match ActivateTx(s.t, takeover)
    case Failure(_) => s
    case Success((t', a)) => s.(t := t', owners := s.owners[o := Loading(a.epoch, a.target, a.reused)])
  }

  ghost function DoActivateSelect(e: Engine, s: System, o: nat): System {
    if s.t.base.None? || o !in s.owners || !s.owners[o].Loading? then s
    else if !StartIntact(e, s.t, s.t.base.value, s.owners[o].target) then s.(owners := s.owners - {o})
    else
      var l := s.owners[o];
      var (start, doc) := StartPoint(s.t, s.t.base.value, l.target);
      s.(owners := s.owners[o := Replaying(l.epoch, l.target, l.reused, start, doc, start, [])])
  }

  /** `list_events_since`, up to the revision being rebuilt. */
  function DoActivateBatch(s: System, o: nat): System {
    if o !in s.owners || !s.owners[o].Replaying? || s.owners[o].pending != [] then s
    else
      var r := s.owners[o];
      var events := KeysIn(s.t.events.Keys, r.cursor, r.target);
      s.(owners := s.owners[o := r.(pending := if |events| <= CATCH_UP_BATCH then events else events[..CATCH_UP_BATCH])])
  }

  /** Whether the next listed event has no journal row: `canonical journal gap`. */
  predicate JournalGap(s: System, o: nat)
    requires o in s.owners && s.owners[o].Replaying? && s.owners[o].pending != []
  {
    s.owners[o].pending[0] !in s.t.updates
  }

  /** `catch_up_one`: the row of any generation at the next listed event. */
  function DoActivateReplay(e: Engine, s: System, o: nat): System {
    if o !in s.owners || !s.owners[o].Replaying? || s.owners[o].pending == [] then s
    else if JournalGap(s, o) then s.(owners := s.owners - {o})
    else
      var r := s.owners[o];
      match e.apply(r.doc, s.t.updates[r.pending[0]].yupdate)
      case None => s.(owners := s.owners - {o})
      case Some(d) => s.(owners := s.owners[o := r.(doc := d, cursor := r.pending[0], pending := r.pending[1..])])
  }

  predicate ReplayDone(s: System, r: Owner)
    requires r.Replaying?
  {
    r.pending == [] && KeysIn(s.t.events.Keys, r.cursor, r.target) == []
  }

  function DoActivateFinish(s: System, o: nat): System {
    if o !in s.owners || !s.owners[o].Replaying? || !ReplayDone(s, s.owners[o]) then s
    else
      var r := s.owners[o];
      var resident := s.owners[o := Resident(r.epoch, r.doc, r.cursor)];
      if r.reused then s.(owners := resident)
      else
        var (t', applied) := MarkReady(s.t, r.epoch, r.target);
        if !applied then s.(owners := s.owners - {o})
        else s.(t := t', owners := resident, readied := s.readied + [r.epoch])
  }

  function DoCommit(e: Engine, s: System, o: nat, yupdate: Bytes, clientEventId: string, eventId: nat): System {
    if o !in s.owners || !s.owners[o].Resident? || s.t.base.None? then s
    else
      var r := s.owners[o];
      match e.apply(r.doc, yupdate)
      case None => s
      case Some(d) =>
        match CommitTx(s.t, Submission(r.epoch, r.cursor, s.t.base.value.generation,
                                       eventId, clientEventId, yupdate, e.project(d), s.clock))
        case Failure(StaleRevision) => s.(owners := s.owners - {o})
        case Failure(_) => s
        case Success((t', seqNo)) =>
          s.(t := t', history := s.history[seqNo := yupdate],
             owners := s.owners[o := Resident(r.epoch, d, seqNo)],
             advances := s.advances + [Advance(r.epoch, r.cursor, seqNo)])
  }

  // ---- compactions ----

  ghost function DoCompactChoose(s: System, c: nat, minUpdates: int, minBytes: int): System {
    if !IsCandidate(s.t, minUpdates, minBytes) then s
    else
      var h := s.t.head.value;
      s.(compactors := s.compactors[c := Chosen(Candidate(h.processedSeq, h.generation, h.epoch, s.t.base.value.clientId))])
  }

  /** The head is read again before any work is done. */
  function DoCompactVerify(s: System, c: nat): System {
    if c !in s.compactors || !s.compactors[c].Chosen? then s
    else if !HeadUnchanged(s.t, s.compactors[c].candidate) then s.(compactors := s.compactors - {c})
    else s.(compactors := s.compactors[c := Verified(s.compactors[c].candidate)])
  }

  ghost function DoCompactStart(s: System, c: nat): System {
    if s.t.base.None? || c !in s.compactors || !s.compactors[c].Verified? then s
    else
      var candidate := s.compactors[c].candidate;
      var found := ReadLatestAtOrBefore(s.t, candidate.clientId, candidate.generation, candidate.processedSeq);
      var (start, doc) := if found.None? then (s.t.base.value.baseSeq, s.t.base.value.stateUpdate)
                          else (found.value.0, found.value.1.stateUpdate);
      s.(compactors := s.compactors[c := Tailing(candidate, start, doc, start, [], false)])
  }

  function DoCompactPage(s: System, c: nat): System {
    if c !in s.compactors || !s.compactors[c].Tailing? || s.compactors[c].drained
       || s.compactors[c].cursor >= s.compactors[c].candidate.processedSeq then s
    else
      var w := s.compactors[c];
      var page := ListUpdatesPage(s.t, w.cursor, w.candidate.processedSeq, w.candidate.generation, UPDATE_PAGE);
      s.(compactors := s.compactors[c := w.(
           cursor := if page == [] then w.cursor else page[|page| - 1].seqNo,
           tail := w.tail + page,
           drained := |page| < UPDATE_PAGE)])
  }

  /** What the compaction would publish now. */
  function Compacted(e: Engine, w: Compactor): Result<Bytes, CompactionError>
    requires w.Tailing?
  {
    CompactBinarySnapshot(e, w.start, w.startDoc, w.candidate.processedSeq, w.tail)
  }

  predicate TailComplete(w: Compactor) {
    w.Tailing? && (w.drained || w.cursor >= w.candidate.processedSeq)
  }

  function PublishAttempt(e: Engine, s: System, w: Compactor, doc: Bytes): Result<(Tables, bool), DbError> {
    PublishSnapshotCas(s.t, w.candidate,
                       SnapshotKey(w.candidate.clientId, w.candidate.generation, w.candidate.processedSeq),
                       Encoded(e, doc))
  }

  function DoCompactPublish(e: Engine, s: System, c: nat): System {
    if c !in s.compactors || !TailComplete(s.compactors[c]) then s
    else
      var w := s.compactors[c];
      var ended := s.(compactors := s.compactors - {c});
      match Compacted(e, w)
      case Failure(_) => ended
      case Success(doc) =>
        match PublishAttempt(e, s, w, doc)
        case Failure(_) => ended
        case Success((t', _)) => ended.(t := t')
  }

  // ---- HTTP clients ----

  /** `get_yrs_base`: the served checkpoint becomes the client's document. `through` is the head
      the request read, then or earlier, while the board was serving. */
  ghost function DoBootstrap(e: Engine, s: System, c: nat, through: int): System {
    if s.t.base.None? || s.t.head.None? || through > s.t.head.value.processedSeq
       || !StartIntact(e, s.t, s.t.base.value, through) then s
    else
      var (start, doc) := StartPoint(s.t, s.t.base.value, through);
      s.(clients := s.clients[c := Holding(doc, start, true)])
  }

  function DoReadHead(s: System, c: nat): System {
    if !Serving(s.t) || c !in s.clients || !s.clients[c].Holding? then s
    else
      var h := s.clients[c];
      s.(clients := s.clients[c := HeadRead(h.doc, h.cursor, h.clean, s.t.head.value.processedSeq,
                                            Checkpoints(s.t, s.t.base.value))])
  }

  /** Base selection at the captured head, then the cursor fence. */
  ghost function DoChooseBase(e: Engine, s: System, c: nat, generation: Option<int>): System {
    if s.t.base.None? || c !in s.clients || !s.clients[c].HeadRead? then s
    else if !StartIntact(e, s.t, s.t.base.value, s.clients[c].head) then s
    else
      var q := s.clients[c];
      var (start, _) := StartPoint(s.t, s.t.base.value, q.head);
      if q.cursor < start || q.cursor > q.head
         || (generation.Some? && generation.value != s.t.base.value.generation)
      then s.(clients := s.clients[c := RebootstrapRequired])
      else s.(clients := s.clients[c := BaseChosen(q.doc, q.cursor, q.clean, q.head, q.known)])
  }

  /** `limit.unwrap_or(500).clamp(1, 2000)` */
  function PageLimit(limit: Option<int>): (r: nat)
    ensures 1 <= r <= 2000
  {
    match limit case None => 500 case Some(l) => if l < 1 then 1 else if l > 2000 then 2000 else l
  }

  /** The rows of one response, whether more remain, and the next cursor. */
  datatype Page = Page(rows: seq<Row>, hasMore: bool, next: int)

  function ServePage(t: Tables, generation: int, since: int, head: int, limit: nat): (p: Page) {
    var rows := ListUpdatesPage(t, since, head, generation, limit + 1);
    if |rows| > limit then
      Page(rows[..limit], true, if limit == 0 then since else rows[limit - 1].seqNo)
    else Page(rows, false, head)
  }

  /** At most one new checkpoint was published since the request read the head. */
  predicate AtMostOneNew(s: System, known: set<int>)
    requires s.t.base.Some?
  {
    |Checkpoints(s.t, s.t.base.value) - known| <= 1
  }

  /** The client after one response. */
  function Received(e: Engine, t: Tables, generation: int, q: Client, limit: nat, atMostOneNew: bool): Client
    requires q.BaseChosen?
  {
    var page := ServePage(t, generation, q.cursor, q.head, limit);
    match ReplayRows(e, Some(q.doc), page.rows)
    case None => RebootstrapRequired
    case Some(d) => Holding(d, page.next, q.clean && atMostOneNew)
  }

  function DoReadPage(e: Engine, s: System, c: nat, limit: Option<int>): System {
    if s.t.base.None? || c !in s.clients || !s.clients[c].BaseChosen? then s
    else
      var q := s.clients[c];
      s.(clients := s.clients[c := Received(e, s.t, s.t.base.value.generation, q, PageLimit(limit), AtMostOneNew(s, q.known))])
  }

  // ---- the step relation ----

  ghost function Do(e: Engine, s: System, step: Step): System {
    match step
    case SeedBase(locked, candidate) => s.(t := UpsertBaseCas(s.t, locked, candidate, None).0)
    case Quarantine =>
      if s.t.head.None? then s else s.(t := s.t.(head := Some(s.t.head.value.(state := Quarantined))))
    case Tick(dt) => s.(clock := s.clock + dt)
    case ActivateBegin(o, takeover) => DoActivateBegin(s, o, takeover)
    case ActivateSelect(o) => DoActivateSelect(e, s, o)
    case ActivateBatch(o) => DoActivateBatch(s, o)
    case ActivateReplay(o) => DoActivateReplay(e, s, o)
    case ActivateFinish(o) => DoActivateFinish(s, o)
    case Evict(o) => s.(owners := s.owners - {o})
    case Commit(o, y, cid, id) => DoCommit(e, s, o, y, cid, id)
    case CompactChoose(c, minUpdates, minBytes) => DoCompactChoose(s, c, minUpdates, minBytes)
    case CompactVerify(c) => DoCompactVerify(s, c)
    case CompactStart(c) => DoCompactStart(s, c)
    case CompactPage(c) => DoCompactPage(s, c)
    case CompactPublish(c) => DoCompactPublish(e, s, c)
    case Prune(days, us, es) => s.(t := PruneBatch(s.t, s.clock, days, us, es))
    case Bootstrap(c, through) => DoBootstrap(e, s, c, through)
    case ReadHead(c) => DoReadHead(s, c)
    case ChooseBase(c, generation) => DoChooseBase(e, s, c, generation)
    case ReadPage(c, limit) => DoReadPage(e, s, c, limit)
  }

  ghost function Run(e: Engine, s: System, steps: seq<Step>): System {
    if steps == [] then s else Do(e, Run(e, s, steps[..|steps| - 1]), steps[|steps| - 1])
  }

  /** The states of all runs from all initial boards. */
  ghost predicate Reachable(e: Engine, b: Base, s: System) {
    exists init, steps :: Init(e, b, init) && s == Run(e, init, steps)
  }

  /** A board whose base folds everything up to its newest event. Rows, events and foreign
      checkpoints from before the base may exist; nothing of this lineage does yet. */
  ghost predicate Init(e: Engine, b: Base, s: System) {
    && s.t.base == Some(b) && 0 <= b.baseSeq < s.t.nextEventSeq
    && s.t.head == None && s.t.assetHead == None
    && s.history == map[] && s.owners == map[] && s.compactors == map[] && s.clients == map[]
    && s.advances == [] && s.readied == []
    && Checkpoints(s.t, b) == {}
    && (forall k | k in s.t.updates :: k <= b.baseSeq)
    && (forall k | k in s.t.events :: k <= b.baseSeq)
    && (s.t.events.Keys == {} || b.baseSeq in s.t.events)
    && (forall k | k in s.t.updates && s.t.updates[k].eventId.Some? ::
          k in s.t.events && s.t.events[k].id == s.t.updates[k].eventId.value)
  }
}
