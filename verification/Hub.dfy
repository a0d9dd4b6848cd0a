/** The realtime hub: one pair of broadcast channels per board, created on demand and dropped
    when nobody listens.

    Each critical section of the map's lock is one step, and so is each subscription and each
    dropped receiver, so lookups, subscriptions, sweeps and evictions interleave freely. A
    channel pair is named by its generation number; numbers are never reused. */
module Hub {
  import opened Wrappers

  /** A connection. `mapped` records whether its channels were still the map's when it
      subscribed. */
  datatype Client =
    | Missed(board: nat)
    | Holding(board: nat, gen: nat)
    | Live(board: nat, gen: nat, commits: bool, previews: bool, mapped: bool)

  datatype State = State(boards: map<nat, nat>, clients: map<nat, Client>, evicting: set<nat>, nextGen: nat)

  datatype Step =
    | LookupRead(client: nat, board: nat)
    | LookupWrite(client: nat)
    | Subscribe(client: nat)
    | DropCommits(client: nat)
    | DropPreviews(client: nat)
    | Leave(client: nat)
    | EvictRead(board: nat)
    | EvictWrite(board: nat)

  /** `receiver_count() > 0` on either channel of a generation. */
  predicate Listened(clients: map<nat, Client>, gen: nat) {
    exists c :: c in clients && clients[c].Live? && clients[c].gen == gen
  }

  function Swept(s: State): map<nat, nat> {
    map b | b in s.boards && Listened(s.clients, s.boards[b]) :: s.boards[b]
  }

  /** `channels_for` under the write lock: re-check, else sweep dead boards and create. */
  function Create(s: State, board: nat): (State, nat) {
    if board in s.boards then (s, s.boards[board])
    else (s.(boards := Swept(s)[board := s.nextGen], nextGen := s.nextGen + 1), s.nextGen)
  }

  predicate Idle(s: State, board: nat) {
    board in s.boards && !Listened(s.clients, s.boards[board])
  }

  function Dropped(s: State, c: nat, commits: bool, previews: bool): State
    requires c in s.clients && s.clients[c].Live?
  {
    var l := s.clients[c];
    s.(clients := if commits || previews then s.clients[c := Live(l.board, l.gen, commits, previews, l.mapped)]
                  else s.clients - {c})
  }

  function Do(s: State, step: Step): State {
    match step
    case LookupRead(c, b) =>
      if c in s.clients then s
      else s.(clients := s.clients[c := if b in s.boards then Holding(b, s.boards[b]) else Missed(b)])
    case LookupWrite(c) =>
      if c !in s.clients || !s.clients[c].Missed? then s
      else
        var b := s.clients[c].board;
        var (created, gen) := Create(s, b);
        created.(clients := created.clients[c := Holding(b, gen)])
    case Subscribe(c) =>
      if c !in s.clients || !s.clients[c].Holding? then s
      else
        var h := s.clients[c];
        s.(clients := s.clients[c := Live(h.board, h.gen, true, true, h.board in s.boards && s.boards[h.board] == h.gen)])
    case DropCommits(c) =>
      if c !in s.clients || !s.clients[c].Live? then s else Dropped(s, c, false, s.clients[c].previews)
    case DropPreviews(c) =>
      if c !in s.clients || !s.clients[c].Live? then s else Dropped(s, c, s.clients[c].commits, false)
    case Leave(c) => if c in s.clients && !s.clients[c].Live? then s.(clients := s.clients - {c}) else s
    case EvictRead(b) => if Idle(s, b) then s.(evicting := s.evicting + {b}) else s
    case EvictWrite(b) =>
      if b !in s.evicting then s
      else s.(evicting := s.evicting - {b}, boards := if Idle(s, b) then s.boards - {b} else s.boards)
  }

  function Run(s: State, steps: seq<Step>): State {
    if steps == [] then s else Do(Run(s, steps[..|steps| - 1]), steps[|steps| - 1])
  }

  const Empty: State := State(map[], map[], {}, 0)

  // ---- invariant ----

  /** A generation belongs to one board. */
  predicate Named(s: State) {
    && (forall b | b in s.boards :: s.boards[b] < s.nextGen)
    && (forall b1, b2 | b1 in s.boards && b2 in s.boards && s.boards[b1] == s.boards[b2] :: b1 == b2)
    && (forall c | c in s.clients && !s.clients[c].Missed? ::
          && s.clients[c].gen < s.nextGen
          && forall b | b in s.boards && s.boards[b] == s.clients[c].gen :: b == s.clients[c].board)
  }

  /** A live connection is on the map's channels if and only if it subscribed to them there. */
  predicate Settled(s: State) {
    forall c | c in s.clients && s.clients[c].Live? ::
      && (s.clients[c].commits || s.clients[c].previews)
      && (s.clients[c].mapped <==>
            s.clients[c].board in s.boards && s.boards[s.clients[c].board] == s.clients[c].gen)
  }

  lemma StepKeeps(s: State, step: Step)
    requires Named(s) && Settled(s)
    ensures Named(Do(s, step)) && Settled(Do(s, step))
  {
    match step
    case LookupRead(c, b) => LookupReadKeeps(s, c, b);
    case LookupWrite(c) => LookupWriteKeeps(s, c);
    case Subscribe(c) => SubscribeKeeps(s, c);
    case DropCommits(c) => DropKeeps(s, c);
    case DropPreviews(c) => DropKeeps(s, c);
    case Leave(c) =>
    case EvictRead(b) =>
    case EvictWrite(b) => EvictKeeps(s, b);
  }

  lemma LookupReadKeeps(s: State, c: nat, b: nat)
    requires Named(s) && Settled(s)
    ensures Named(Do(s, LookupRead(c, b))) && Settled(Do(s, LookupRead(c, b)))
  {
  }

  lemma SubscribeKeeps(s: State, c: nat)
    requires Named(s) && Settled(s)
    ensures Named(Do(s, Subscribe(c))) && Settled(Do(s, Subscribe(c)))
  {
  }

  lemma DropKeeps(s: State, c: nat)
    requires Named(s) && Settled(s)
    ensures Named(Do(s, DropCommits(c))) && Settled(Do(s, DropCommits(c)))
    ensures Named(Do(s, DropPreviews(c))) && Settled(Do(s, DropPreviews(c)))
  {
  }

  lemma EvictKeeps(s: State, b: nat)
    requires Named(s) && Settled(s)
    ensures Named(Do(s, EvictWrite(b))) && Settled(Do(s, EvictWrite(b)))
  {
    assert forall k | k in s.clients && s.clients[k].Live? :: Listened(s.clients, s.clients[k].gen);
  }

  lemma CreateNamed(s: State, board: nat)
    requires Named(s)
    ensures var (s', gen) := Create(s, board); Named(s') && board in s'.boards && s'.boards[board] == gen
  {
  }

  lemma CreateSettled(s: State, board: nat)
    requires Named(s) && Settled(s)
    ensures Settled(Create(s, board).0)
  {
    if board !in s.boards {
      var s' := Create(s, board).0;
      SweepKeepsListened(s);
      forall c | c in s.clients && s.clients[c].Live?
        ensures s.clients[c].mapped <==>
                s.clients[c].board in s'.boards && s'.boards[s.clients[c].board] == s.clients[c].gen
      {
        assert Listened(s.clients, s.clients[c].gen);
      }
    }
  }

  lemma HoldKeeps(s: State, c: nat, board: nat)
    requires Named(s) && Settled(s) && board in s.boards
    requires c in s.clients && !s.clients[c].Live?
    ensures var s' := s.(clients := s.clients[c := Holding(board, s.boards[board])]); Named(s') && Settled(s')
  {
  }

  lemma LookupWriteKeeps(s: State, c: nat)
    requires Named(s) && Settled(s)
    ensures Named(Do(s, LookupWrite(c))) && Settled(Do(s, LookupWrite(c)))
  {
    if c in s.clients && s.clients[c].Missed? {
      CreateNamed(s, s.clients[c].board);
      CreateSettled(s, s.clients[c].board);
      HoldKeeps(Create(s, s.clients[c].board).0, c, s.clients[c].board);
    }
  }

  lemma SweepKeepsListened(s: State)
    ensures forall b | b in s.boards && Listened(s.clients, s.boards[b]) :: b in Swept(s) && Swept(s)[b] == s.boards[b]
  {
  }

  lemma {:induction false} RunKeeps(steps: seq<Step>)
    ensures Named(Run(Empty, steps)) && Settled(Run(Empty, steps))
  {
    if steps != [] {
      RunKeeps(steps[..|steps| - 1]);
      StepKeeps(Run(Empty, steps[..|steps| - 1]), steps[|steps| - 1]);
    }
  }

  // ---- guarantees ----

  /** The connections a broadcast to a board reaches, and those it should reach. */
  function Reached(s: State, board: nat): set<nat> {
    set c | c in s.clients && s.clients[c].Live? && board in s.boards && s.clients[c].gen == s.boards[board]
  }

  function Connected(s: State, board: nat): set<nat> {
    set c | c in s.clients && s.clients[c].Live? && s.clients[c].board == board
  }

  /** Agreement, exactly: in every run a broadcast reaches all connections of its board, and no
      others, if and only if each of them subscribed while its channels were still the map's. */
  lemma HubAgreement(steps: seq<Step>, board: nat)
    ensures var s := Run(Empty, steps);
            && Reached(s, board) <= Connected(s, board)
            && (Reached(s, board) == Connected(s, board) <==>
                forall c | c in s.clients && s.clients[c].Live? && s.clients[c].board == board :: s.clients[c].mapped)
  {
    RunKeeps(steps);
    var s := Run(Empty, steps);
    forall c | c in s.clients && s.clients[c].Live? && s.clients[c].board == board
      ensures c in Connected(s, board) && (c in Reached(s, board) <==> s.clients[c].mapped)
    {
    }
  }

  // ---- agreement by the steps of the run ----

  predicate Maps(s: State, board: nat, gen: nat) {
    board in s.boards && s.boards[board] == gen
  }

  /** The step takes the channels out of the map. */
  predicate Removes(s: State, step: Step, board: nat, gen: nat) {
    Maps(s, board, gen) && !Maps(Do(s, step), board, gen)
  }

  /** Only the eviction of the board does that, or the sweep of a lookup that creates another
      board, and only when nobody listens. */
  lemma WhatRemoves(s: State, step: Step, board: nat, gen: nat)
    requires Removes(s, step, board, gen)
    ensures !Listened(s.clients, gen)
    ensures step == EvictWrite(board)
            || (step.LookupWrite? && step.client in s.clients && s.clients[step.client].Missed?
                && s.clients[step.client].board != board)
  {
    SweepKeepsListened(s);
  }

  /** The connection's channels were taken out of the map after it had looked them up and before
      it subscribed. */
  predicate LostWhileHeld(steps: seq<Step>, c: nat) {
    steps != [] &&
    var front, last := steps[..|steps| - 1], steps[|steps| - 1];
    var s := Run(Empty, front);
    && c in s.clients && !s.clients[c].Missed?
    && (LostWhileHeld(front, c)
        || (s.clients[c].Holding? && Removes(s, last, s.clients[c].board, s.clients[c].gen)))
  }

  predicate HeldOrMapped(s: State, c: nat, lost: bool) {
    c in s.clients ==>
      && (s.clients[c].Holding? ==> (lost <==> !Maps(s, s.clients[c].board, s.clients[c].gen)))
      && (s.clients[c].Live? ==> (lost <==> !s.clients[c].mapped))
      && (s.clients[c].Missed? ==> !lost)
  }

  lemma StepHeld(s: State, step: Step, c: nat, lost: bool)
    requires Named(s) && HeldOrMapped(s, c, lost) && c in s.clients && !s.clients[c].Missed?
    ensures HeldOrMapped(Do(s, step), c,
                         lost || (s.clients[c].Holding? && Removes(s, step, s.clients[c].board, s.clients[c].gen)))
  {
  }

  lemma StepLooksUp(s: State, step: Step, c: nat)
    requires c in s.clients ==> s.clients[c].Missed?
    ensures HeldOrMapped(Do(s, step), c, false)
  {
  }

  lemma {:induction false} RunHeld(steps: seq<Step>, c: nat)
    ensures HeldOrMapped(Run(Empty, steps), c, LostWhileHeld(steps, c))
  {
    if steps != [] {
      var front, last := steps[..|steps| - 1], steps[|steps| - 1];
      var s := Run(Empty, front);
      RunHeld(front, c);
      RunKeeps(front);
      if c in s.clients && !s.clients[c].Missed? {
        StepHeld(s, last, c, LostWhileHeld(front, c));
      } else {
        StepLooksUp(s, last, c);
      }
    }
  }

  /** Agreement, exactly, by what happened: broadcasts to a board reach all its connections if
      and only if none of them had its channels evicted or swept between its lookup and its
      subscription. */
  lemma {:induction false} AgreementUnlessLostWhileHeld(steps: seq<Step>, board: nat)
    ensures var s := Run(Empty, steps);
            Reached(s, board) == Connected(s, board) <==>
            forall c | c in s.clients && s.clients[c].Live? && s.clients[c].board == board :: !LostWhileHeld(steps, c)
  {
    var s := Run(Empty, steps);
    HubAgreement(steps, board);
    forall c | c in s.clients && s.clients[c].Live?
      ensures s.clients[c].mapped <==> !LostWhileHeld(steps, c)
    {
      RunHeld(steps, c);
    }
  }

  /** Then all connections of a board share one generation. */
  lemma OneGeneration(steps: seq<Step>, c1: nat, c2: nat)
    requires var s := Run(Empty, steps);
             && c1 in s.clients && s.clients[c1].Live? && s.clients[c1].mapped
             && c2 in s.clients && s.clients[c2].Live? && s.clients[c2].mapped
             && s.clients[c1].board == s.clients[c2].board
    ensures var s := Run(Empty, steps); s.clients[c1].gen == s.clients[c2].gen
  {
    RunKeeps(steps);
  }

  /** A lookup and a subscription with no step between them always subscribe to the map's
      channels, on the fast path and on the creating path. */
  lemma AtomicConnectIsMapped(s: State, c: nat, board: nat)
    requires c !in s.clients
    ensures var s' := Do(Do(Do(s, LookupRead(c, board)), LookupWrite(c)), Subscribe(c));
            c in s'.clients && s'.clients[c].Live? && s'.clients[c].mapped
            && board in s'.boards && s'.boards[board] == s'.clients[c].gen
  {
  }

  /** No sweep and no eviction removes a board with a live receiver, or changes its channels. */
  lemma ListenedBoardStays(s: State, step: Step, board: nat)
    requires board in s.boards && Listened(s.clients, s.boards[board])
    ensures board in Do(s, step).boards && Do(s, step).boards[board] == s.boards[board]
  {
    SweepKeepsListened(s);
  }

  /** What can go wrong when the two are apart: an eviction between a lookup and its
      subscription leaves a connection on channels nobody publishes to, while later
      connections of the same board get new ones. */
  lemma SplitConnectCanMissBroadcasts()
    ensures var s := Run(Empty, [LookupRead(1, 7), LookupWrite(1), EvictRead(7), EvictWrite(7), Subscribe(1),
                                 LookupRead(2, 7), LookupWrite(2), Subscribe(2)]);
            && s.clients.Keys == {1, 2} && s.clients[1].Live? && s.clients[2].Live?
            && s.clients[1].board == 7 == s.clients[2].board
            && s.clients[1].gen != s.clients[2].gen
            && Reached(s, 7) == {2}
  {
    var s0 := Do(Do(Empty, LookupRead(1, 7)), LookupWrite(1));
    assert s0.boards == map[7 := 0] && s0.clients == map[1 := Holding(7, 0)];
    var s1 := Do(Do(s0, EvictRead(7)), EvictWrite(7));
    assert s1.boards == map[] && s1.clients == map[1 := Holding(7, 0)];
    var s2 := Do(s1, Subscribe(1));
    assert s2.clients == map[1 := Live(7, 0, true, true, false)];
    var s3 := Do(Do(Do(s2, LookupRead(2, 7)), LookupWrite(2)), Subscribe(2));
    assert s3.boards == map[7 := 1];
    assert s3.clients == map[1 := Live(7, 0, true, true, false), 2 := Live(7, 1, true, true, true)];
    assert Reached(s3, 7) == {2};
    RunIs([LookupRead(1, 7), LookupWrite(1), EvictRead(7), EvictWrite(7), Subscribe(1),
           LookupRead(2, 7), LookupWrite(2), Subscribe(2)]);
  }

  lemma RunIs(t: seq<Step>)
    requires |t| == 8
    ensures Run(Empty, t) == Do(Do(Do(Do(Do(Do(Do(Do(Empty, t[0]), t[1]), t[2]), t[3]), t[4]), t[5]), t[6]), t[7])
  {
    RunLast(t, 0); RunLast(t, 1); RunLast(t, 2); RunLast(t, 3);
    RunLast(t, 4); RunLast(t, 5); RunLast(t, 6); RunLast(t, 7);
    assert t[..0] == [] && t[..8] == t;
  }

  lemma RunLast(t: seq<Step>, i: nat)
    requires i < |t|
    ensures Run(Empty, t[..i + 1]) == Do(Run(Empty, t[..i]), t[i])
  {
    assert t[..i + 1][..i] == t[..i];
  }

  // ---- the lock sections ----

  /** The map behind the lock. `clients` stands for the receivers the channels count. */
  class RealtimeHub {
    var boards: map<nat, nat>
    var nextGen: nat

    constructor ()
      ensures boards == map[] && nextGen == 0
    {
      boards, nextGen := map[], 0;
    }

    /** The two critical sections of `channels_for` with nothing in between. */
    method ChannelsFor(ghost s: State, clients: map<nat, Client>, board: nat) returns (gen: nat)
      requires s == State(boards, clients, s.evicting, nextGen)
      modifies this
      ensures (State(boards, clients, s.evicting, nextGen), gen) == Create(s, board)
    {
      if board in boards { return boards[board]; }
      var rest, kept := boards.Keys, map[];
      while rest != {}
        invariant rest <= boards.Keys
        invariant kept == map b | b in boards && b !in rest && Listened(clients, boards[b]) :: boards[b]
        decreases rest
      {
        var b :| b in rest;
        if Listened(clients, boards[b]) {
          kept := kept[b := boards[b]];
        }
        rest := rest - {b};
      }
      assert kept == Swept(s);
      gen := nextGen;
      boards, nextGen := kept[board := gen], nextGen + 1;
    }

    /** `evict_if_idle`'s second critical section. */
    method EvictLocked(ghost s: State, clients: map<nat, Client>, board: nat)
      requires s == State(boards, clients, s.evicting, nextGen) && board in s.evicting
      modifies this`boards
      ensures State(boards, clients, s.evicting - {board}, nextGen) == Do(s, EvictWrite(board))
    {
      if board in boards && !Listened(clients, boards[board]) {
        boards := boards - {board};
      }
    }
  }
}
