/** The websocket send task: a broadcast ring that drops what a slow receiver left too long,
    optional batching of whatever is buffered, and debounced resync requests.

    Publishers run between any two receives, so the environment is a script with one entry for
    each receive: what was published since the previous one, and how long that took. */
module Delivery {
  import opened Wrappers

  /** `RESYNC_DEBOUNCE`, in milliseconds */
  const RESYNC_DEBOUNCE: nat := 1_000

  /** One serialized broadcast; `yrs` is what `is_yrs_update` says of it. */
  datatype Msg = Msg(yrs: bool, body: string)

  datatype Arrival = Arrival(msgs: seq<Msg>, dt: nat)

  /** Everything ever published to the board's commit channel, and the receiver's position. */
  datatype Ring = Ring(published: seq<Msg>, pos: nat)

  datatype Received = Taken(msg: Msg) | Empty | Lagged(missed: nat)

  /** One connection's settings. `slots` is the ring's size, `maxDrain` the batch cap. */
  datatype Config = Config(slots: nat, maxDrain: nat, batching: bool, yrsSupported: bool)

  predicate Valid(cfg: Config) {
    1 <= cfg.slots && 1 <= cfg.maxDrain
  }

  /** `broadcast::Receiver` after the arrival was published: the oldest retained message, or
      nothing, or a jump over messages that were overwritten. */
  function Receive(slots: nat, ring: Ring, a: Arrival): (Ring, Received) {
    var published := ring.published + a.msgs;
    if |published| <= ring.pos then (Ring(published, ring.pos), Empty)
    else if |published| - ring.pos > slots then
      (Ring(published, |published| - slots), Lagged(|published| - slots - ring.pos))
    else (Ring(published, ring.pos + 1), Taken(published[ring.pos]))
  }

  /** `should_deliver_durable` */
  predicate Deliverable(cfg: Config, m: Msg) {
    cfg.yrsSupported || !m.yrs
  }

  datatype Item = Durable(msg: Msg) | Resync

  /** What goes on the socket: one message, or a batch of several. */
  datatype Frame = One(item: Item) | Batch(msgs: seq<Msg>)

  /** The resync a lag asks for, unless one was sent less than the debounce ago. */
  predicate ResyncDue(lastResync: Option<int>, now: int) {
    lastResync.None? || now - lastResync.value >= RESYNC_DEBOUNCE
  }

  // ---- reference: one frame per message ----

  /** An interval of ring positions the receiver was moved over, and when. */
  datatype Skip = Skip(lo: nat, hi: nat, at: int)

  /** A connection that sends every message on its own, with a record of what became of each
      ring position and of when resyncs were sent. */
  datatype Line = Line(
    ring: Ring, now: int, lastResync: Option<int>, items: seq<Item>,
    taken: seq<nat>, skips: seq<Skip>, resyncs: seq<int>)

  function Subscribed(published: seq<Msg>, now: int): Line {
    Line(Ring(published, |published|), now, None, [], [], [], [])
  }

  function Next(cfg: Config, l: Line, a: Arrival): Line {
    var (ring, got) := Receive(cfg.slots, l.ring, a);
    var now := l.now + a.dt;
    match got
    case Empty => l.(ring := ring, now := now)
    case Taken(m) =>
      l.(ring := ring, now := now, taken := l.taken + [l.ring.pos],
         items := if Deliverable(cfg, m) then l.items + [Durable(m)] else l.items)
    case Lagged(_) =>
      var due := ResyncDue(l.lastResync, now);
      l.(ring := ring, now := now, skips := l.skips + [Skip(l.ring.pos, ring.pos, now)],
         lastResync := if due then Some(now) else l.lastResync,
         resyncs := if due then l.resyncs + [now] else l.resyncs,
         items := if due then l.items + [Resync] else l.items)
  }

  function Sent(cfg: Config, l: Line, script: seq<Arrival>): Line {
    if script == [] then l
    else Next(cfg, Sent(cfg, l, script[..|script| - 1]), script[|script| - 1])
  }

  // ---- the send task ----

  function DurableItems(msgs: seq<Msg>): seq<Item> {
    seq(|msgs|, i requires 0 <= i < |msgs| => Durable(msgs[i]))
  }

  function Content(f: Frame): seq<Item> {
    match f case One(item) => [item] case Batch(msgs) => DurableItems(msgs)
  }

  function Flatten(frames: seq<Frame>): seq<Item> {
    if frames == [] then [] else Flatten(frames[..|frames| - 1]) + Content(frames[|frames| - 1])
  }

  lemma FlattenPush(frames: seq<Frame>, f: Frame)
    ensures Flatten(frames + [f]) == Flatten(frames) + Content(f)
  {
    assert (frames + [f])[..|frames|] == frames;
  }

  lemma SentPush(cfg: Config, l: Line, script: seq<Arrival>, i: nat)
    requires i < |script|
    ensures Sent(cfg, l, script[..i + 1]) == Next(cfg, Sent(cfg, l, script[..i]), script[i])
  {
    assert script[..i + 1][..i] == script[..i];
  }

  predicate FrameOk(cfg: Config, f: Frame) {
    f.Batch? ==> cfg.batching && 2 <= |f.msgs| <= cfg.maxDrain
  }

  predicate FramesOk(cfg: Config, frames: seq<Frame>) {
    forall i | 0 <= i < |frames| :: FrameOk(cfg, frames[i])
  }

  /** What the resync decision adds to a line that has sent `items`. */
  predicate AfterLag(before: Line, after: Line, items: seq<Item>, now: int, lagged: bool) {
    var due := lagged && ResyncDue(before.lastResync, now);
    && after.items == (if due then items + [Resync] else items)
    && after.lastResync == (if due then Some(now) else before.lastResync)
  }

  /** The drain loop: everything else that is buffered, up to the cap or a lag. `first` has
      been received; `before` is the one-frame-per-message line at that point. */
  method Drain(cfg: Config, first: Msg, ring0: Ring, now0: int, script: seq<Arrival>, i0: nat,
               ghost origin: Line, ghost before: Line)
    returns (batch: seq<Msg>, ring: Ring, now: int, i: nat, lagged: bool, ghost after: Line)
    requires Valid(cfg) && i0 <= |script|
    requires before == Sent(cfg, origin, script[..i0]) && ring0 == before.ring && now0 == before.now
    ensures i0 <= i <= |script| && after == Sent(cfg, origin, script[..i])
    ensures ring == after.ring && now == after.now
    ensures 1 <= |batch| <= cfg.maxDrain && batch[0] == first
    ensures AfterLag(before, after, before.items + DurableItems(batch[1..]), now, lagged)
  {
    batch, ring, now, i, lagged, after := [first], ring0, now0, i0, false, before;
    ghost var items := before.items;
    while |batch| < cfg.maxDrain && i < |script| && !lagged
      invariant i0 <= i <= |script| && 1 <= |batch| <= cfg.maxDrain && batch[0] == first
      invariant after == Sent(cfg, origin, script[..i])
      invariant ring == after.ring && now == after.now
      invariant items == before.items + DurableItems(batch[1..])
      invariant AfterLag(before, after, items, now, lagged)
    {
      var next;
      next, ring, now, after := ReceiveNext(cfg, ring, now, script, i, origin, after);
      i := i + 1;
      match next
      case Empty => break;
      case Lagged(_) => lagged := true;
      case Taken(m) =>
        if Deliverable(cfg, m) {
          DrainPush(before.items, batch, m);
          batch := batch + [m];
          items := items + [Durable(m)];
        }
    }
  }

  lemma DrainPush(items: seq<Item>, batch: seq<Msg>, m: Msg)
    requires batch != []
    ensures items + DurableItems((batch + [m])[1..]) == items + DurableItems(batch[1..]) + [Durable(m)]
  {
    assert (batch + [m])[1..] == batch[1..] + [m];
    assert DurableItems(batch[1..] + [m]) == DurableItems(batch[1..]) + [Durable(m)];
    Regroup(items, DurableItems(batch[1..]), [Durable(m)]);
  }

  /** The frame for a received deliverable message, alone or with what `Drain` adds to it. */
  method Gather(cfg: Config, first: Msg, ring0: Ring, now0: int, script: seq<Arrival>, i0: nat,
                ghost origin: Line, ghost before: Line)
    returns (frame: Frame, ring: Ring, now: int, i: nat, lagged: bool, ghost after: Line)
    requires Valid(cfg) && i0 <= |script|
    requires before == Sent(cfg, origin, script[..i0]) && ring0 == before.ring && now0 == before.now
    ensures i0 <= i <= |script| && after == Sent(cfg, origin, script[..i])
    ensures ring == after.ring && now == after.now
    ensures FrameOk(cfg, frame) && Content(frame) != [] && Content(frame)[0] == Durable(first)
    ensures AfterLag(before, after, before.items + Content(frame)[1..], now, lagged)
  {
    if !cfg.batching {
      return One(Durable(first)), ring0, now0, i0, false, before;
    }
    var batch;
    batch, ring, now, i, lagged, after := Drain(cfg, first, ring0, now0, script, i0, origin, before);
    frame := if |batch| == 1 then One(Durable(batch[0])) else Batch(batch);
    assert Content(frame)[1..] == DurableItems(batch[1..]);
  }

  method ReceiveNext(cfg: Config, ring0: Ring, now0: int, script: seq<Arrival>, i0: nat, ghost origin: Line, ghost before: Line)
    returns (got: Received, ring: Ring, now: int, ghost after: Line)
    requires i0 < |script| && before == Sent(cfg, origin, script[..i0]) && ring0 == before.ring && now0 == before.now
    ensures after == Sent(cfg, origin, script[..i0 + 1]) && ring == after.ring && now == after.now
    ensures var items := if got.Taken? && Deliverable(cfg, got.msg) then before.items + [Durable(got.msg)] else before.items;
            AfterLag(before, after, items, now, got.Lagged?)
  {
    SentPush(cfg, origin, script, i0);
    var (moved, what) := Receive(cfg.slots, ring0, script[i0]);
    got, ring, now, after := what, moved, now0 + script[i0].dt, Next(cfg, before, script[i0]);
  }

  /** One turn of the select loop: a receive, what is drained after it, and the frames. */
  method Turn(cfg: Config, ring0: Ring, now0: int, lastResync0: Option<int>, script: seq<Arrival>, i0: nat,
              ghost origin: Line, ghost before: Line)
    returns (out: seq<Frame>, ring: Ring, now: int, lastResync: Option<int>, i: nat, ghost after: Line)
    requires Valid(cfg) && i0 < |script| && before == Sent(cfg, origin, script[..i0])
    requires ring0 == before.ring && now0 == before.now && lastResync0 == before.lastResync
    ensures i0 < i <= |script| && after == Sent(cfg, origin, script[..i])
    ensures ring == after.ring && now == after.now && lastResync == after.lastResync
    ensures after.items == before.items + Flatten(out) && FramesOk(cfg, out)
  {
    var content, lagged;
    out, content, ring, now, i, lagged, after := ReceiveFrame(cfg, ring0, now0, script, i0, origin, before);
    lastResync := lastResync0;
    TurnItems(before, after, content, now, lagged);
    if lagged && ResyncDue(lastResync, now) {
      FlattenPush(out, One(Resync));
      out := out + [One(Resync)];
      lastResync := Some(now);
    }
  }

  /** The receive of a turn and the frame it leads to, if any, before the resync decision. */
  method ReceiveFrame(cfg: Config, ring0: Ring, now0: int, script: seq<Arrival>, i0: nat,
                      ghost origin: Line, ghost before: Line)
    returns (out: seq<Frame>, content: seq<Item>, ring: Ring, now: int, i: nat, lagged: bool, ghost after: Line)
    requires Valid(cfg) && i0 < |script| && before == Sent(cfg, origin, script[..i0])
    requires ring0 == before.ring && now0 == before.now
    ensures i0 < i <= |script| && after == Sent(cfg, origin, script[..i])
    ensures ring == after.ring && now == after.now
    ensures Flatten(out) == content && FramesOk(cfg, out)
    ensures AfterLag(before, after, before.items + content, now, lagged)
  {
    var got;
    got, ring, now, after := ReceiveNext(cfg, ring0, now0, script, i0, origin, before);
    if got.Taken? && Deliverable(cfg, got.msg) {
      var frame;
      ghost var taken := after;
      frame, ring, now, i, lagged, after := Gather(cfg, got.msg, ring, now, script, i0 + 1, origin, after);
      GatheredItems(before.items, taken.items, frame, got.msg);
      SingleFrame(frame);
      return [frame], Content(frame), ring, now, i, lagged, after;
    }
    assert before.items + [] == before.items;
    return [], [], ring, now, i0 + 1, got.Lagged?, after;
  }

  /** The line gained the content of the frame and the resync, in that order. */
  lemma TurnItems(before: Line, after: Line, content: seq<Item>, now: int, lagged: bool)
    requires AfterLag(before, after, before.items + content, now, lagged)
    ensures after.items == before.items
              + if lagged && ResyncDue(before.lastResync, now) then content + [Resync] else content
  {
    Regroup(before.items, content, [Resync]);
  }

  lemma SingleFrame(f: Frame)
    ensures Flatten([f]) == Content(f)
  {
    FlattenPush([], f);
    assert [] + [f] == [f];
  }

  lemma GatheredItems(before: seq<Item>, taken: seq<Item>, frame: Frame, first: Msg)
    requires taken == before + [Durable(first)] && Content(frame) != [] && Content(frame)[0] == Durable(first)
    ensures taken + Content(frame)[1..] == before + Content(frame)
  {
  }

  lemma {:induction false} FlattenAppend(a: seq<Frame>, b: seq<Frame>)
    ensures Flatten(a + b) == Flatten(a) + Flatten(b)
  {
    if b == [] {
      assert a + b == a;
    } else {
      var front, last := b[..|b| - 1], b[|b| - 1];
      SplitLast(a, b);
      FlattenAppend(a, front);
      FlattenPush(a + front, last);
      FlattenPush(front, last);
      Regroup(Flatten(a), Flatten(front), Content(last));
    }
  }

  lemma SplitLast(a: seq<Frame>, b: seq<Frame>)
    requires b != []
    ensures b == b[..|b| - 1] + [b[|b| - 1]] && a + b == (a + b[..|b| - 1]) + [b[|b| - 1]]
  {
  }

  lemma Regroup(x: seq<Item>, y: seq<Item>, z: seq<Item>)
    ensures (x + y) + z == x + (y + z)
  {
  }

  lemma NextGrows(cfg: Config, l: Line, a: Arrival)
    ensures l.items <= Next(cfg, l, a).items
  {
  }

  lemma {:induction false} SentGrows(cfg: Config, l: Line, script: seq<Arrival>, i: nat)
    requires i <= |script|
    ensures Sent(cfg, l, script[..i]).items <= Sent(cfg, l, script).items
    decreases |script| - i
  {
    if i == |script| {
      assert script[..i] == script;
    } else {
      SentPush(cfg, l, script, i);
      NextGrows(cfg, Sent(cfg, l, script[..i]), script[i]);
      SentGrows(cfg, l, script, i + 1);
    }
  }

  lemma CutFrames(frames: seq<Frame>, out: seq<Frame>, k: nat)
    requires k <= |out|
    ensures Flatten(frames + out[..k]) <= Flatten(frames) + Flatten(out)
  {
    FlattenAppend(frames, out[..k]);
    FlattenAppend(out[..k], out[k..]);
    assert out == out[..k] + out[k..];
    Regroup(Flatten(frames), Flatten(out[..k]), Flatten(out[k..]));
  }

  /** The loop of the send task on a socket that takes `accepts` frames before a send fails.
      Whether it batches or not, and wherever a batch is cut off by its cap, an empty ring or a
      lag, the frames flatten to a prefix of what the connection that sends one frame per message
      sends, and to all of it unless a send failed. */
  method SendTask(cfg: Config, published: seq<Msg>, start: int, script: seq<Arrival>, accepts: nat) returns (frames: seq<Frame>)
    requires Valid(cfg)
    ensures Flatten(frames) <= Sent(cfg, Subscribed(published, start), script).items
    ensures |frames| < accepts ==> Flatten(frames) == Sent(cfg, Subscribed(published, start), script).items
    ensures |frames| <= accepts && FramesOk(cfg, frames)
  {
    var ring := Ring(published, |published|);
    var now := start;
    var lastResync: Option<int> := None;
    frames := [];
    var i := 0;
    ghost var origin := Subscribed(published, start);
    ghost var l := origin;
    assert script[..0] == [];
    while i < |script|
      invariant 0 <= i <= |script| && l == Sent(cfg, origin, script[..i])
      invariant ring == l.ring && now == l.now && lastResync == l.lastResync
      invariant Flatten(frames) == l.items && |frames| <= accepts && FramesOk(cfg, frames)
    {
      var out;
      out, ring, now, lastResync, i, l := Turn(cfg, ring, now, lastResync, script, i, origin, l);
      if |frames| + |out| > accepts {
        CutFrames(frames, out, accepts - |frames|);
        SentGrows(cfg, origin, script, i);
        return frames + out[..accepts - |frames|];
      }
      FlattenAppend(frames, out);
      frames := frames + out;
    }
    assert script[..i] == script;
  }

  // ---- what every run guarantees ----

  function Durables(items: seq<Item>): seq<Msg> {
    if items == [] then []
    else Durables(items[..|items| - 1])
         + match items[|items| - 1] case Durable(m) => [m] case Resync => []
  }

  /** The deliverable messages at the given positions. */
  function Picked(cfg: Config, published: seq<Msg>, at: seq<nat>): seq<Msg>
    requires forall i | 0 <= i < |at| :: at[i] < |published|
  {
    if at == [] then []
    else Picked(cfg, published, at[..|at| - 1])
         + if Deliverable(cfg, published[at[|at| - 1]]) then [published[at[|at| - 1]]] else []
  }

  predicate Increasing(at: seq<nat>, lo: nat, hi: nat) {
    && (forall i | 0 <= i < |at| :: lo <= at[i] < hi)
    && (forall i, j | 0 <= i < j < |at| :: at[i] < at[j])
  }

  predicate Skipped(skips: seq<Skip>, p: nat) {
    exists i :: 0 <= i < |skips| && skips[i].lo <= p < skips[i].hi
  }

  /** Every position since the subscription was received or skipped, never both. */
  predicate Accounted(l: Line, start: nat) {
    && start <= l.ring.pos <= |l.ring.published|
    && Increasing(l.taken, start, l.ring.pos)
    && (forall i | 0 <= i < |l.skips| :: start <= l.skips[i].lo < l.skips[i].hi <= l.ring.pos)
    && (forall p | start <= p < l.ring.pos :: p in l.taken <==> !Skipped(l.skips, p))
  }

  /** The durable stream is the received, deliverable messages in publication order. */
  predicate Faithful(cfg: Config, l: Line) {
    && (forall i | 0 <= i < |l.taken| :: l.taken[i] < |l.ring.published|)
    && Durables(l.items) == Picked(cfg, l.ring.published, l.taken)
  }

  predicate Covers(resyncs: seq<int>, at: int) {
    exists r :: 0 <= r < |resyncs| && at - RESYNC_DEBOUNCE < resyncs[r] <= at
  }

  /** Every skip is covered by a resync sent at its detection or less than the debounce before
      it, and resyncs keep the debounce between them. */
  predicate Debounced(l: Line) {
    && (forall i | 0 <= i < |l.skips| :: Covers(l.resyncs, l.skips[i].at))
    && (forall i, j | 0 <= i < j < |l.resyncs| :: l.resyncs[j] - l.resyncs[i] >= RESYNC_DEBOUNCE)
    && (l.lastResync.None? <==> l.resyncs == [])
    && (l.lastResync.Some? ==> l.resyncs[|l.resyncs| - 1] == l.lastResync.value && l.lastResync.value <= l.now)
    && Resyncs(l.items) == |l.resyncs|
  }

  function Resyncs(items: seq<Item>): nat {
    if items == [] then 0
    else Resyncs(items[..|items| - 1]) + if items[|items| - 1].Resync? then 1 else 0
  }

  lemma PickedFrame(cfg: Config, p: seq<Msg>, more: seq<Msg>, at: seq<nat>)
    requires forall i | 0 <= i < |at| :: at[i] < |p|
    ensures Picked(cfg, p + more, at) == Picked(cfg, p, at)
  {
    if at != [] {
      PickedFrame(cfg, p, more, at[..|at| - 1]);
    }
  }

  lemma ItemsPush(items: seq<Item>, item: Item)
    ensures Durables(items + [item]) == Durables(items) + match item case Durable(m) => [m] case Resync => []
    ensures Resyncs(items + [item]) == Resyncs(items) + if item.Resync? then 1 else 0
  {
    assert (items + [item])[..|items|] == items;
  }

  lemma NextAccounted(cfg: Config, l: Line, a: Arrival, start: nat)
    requires Valid(cfg) && Accounted(l, start)
    ensures Accounted(Next(cfg, l, a), start)
  {
    var l' := Next(cfg, l, a);
    var (ring, got) := Receive(cfg.slots, l.ring, a);
    if got.Taken? {
      assert l'.taken[|l.taken|] == l.ring.pos;
      forall p | start <= p < l'.ring.pos
        ensures p in l'.taken <==> !Skipped(l'.skips, p)
      {
        assert p in l'.taken <==> p in l.taken || p == l.ring.pos;
      }
    } else if got.Lagged? {
      var skip := l'.skips[|l.skips|];
      forall p | start <= p < l'.ring.pos
        ensures p in l'.taken <==> !Skipped(l'.skips, p)
      {
        if p < l.ring.pos {
          assert Skipped(l'.skips, p) <==> Skipped(l.skips, p) by {
            if Skipped(l.skips, p) {
              var i :| 0 <= i < |l.skips| && l.skips[i].lo <= p < l.skips[i].hi;
              assert l'.skips[i] == l.skips[i];
            }
          }
        } else {
          assert skip.lo <= p < skip.hi;
          assert p !in l.taken;
        }
      }
    }
  }

  lemma NextFaithful(cfg: Config, l: Line, a: Arrival)
    requires Valid(cfg) && Faithful(cfg, l)
    ensures Faithful(cfg, Next(cfg, l, a))
  {
    var l' := Next(cfg, l, a);
    var (ring, got) := Receive(cfg.slots, l.ring, a);
    PickedFrame(cfg, l.ring.published, a.msgs, l.taken);
    ItemsPush(l.items, Resync);
    if got.Taken? {
      ItemsPush(l.items, Durable(got.msg));
      assert l'.taken[..|l.taken|] == l.taken;
    }
  }

  lemma NextDebounced(cfg: Config, l: Line, a: Arrival)
    requires Debounced(l)
    ensures Debounced(Next(cfg, l, a))
  {
    var l' := Next(cfg, l, a);
    ItemsPush(l.items, Resync);
    var (ring, got) := Receive(cfg.slots, l.ring, a);
    if got.Taken? {
      ItemsPush(l.items, Durable(got.msg));
    } else if got.Lagged? {
      SkipsCovered(l, l', l.now + a.dt);
      ResyncsApart(l, l', l.now + a.dt);
    }
  }

  /** A line after a lag detected at `now`. */
  predicate Lag(l: Line, l': Line, now: int) {
    var due := ResyncDue(l.lastResync, now);
    && l.now <= now
    && |l'.skips| == |l.skips| + 1 && l'.skips[..|l.skips|] == l.skips && l'.skips[|l.skips|].at == now
    && l'.lastResync == (if due then Some(now) else l.lastResync)
    && l'.resyncs == (if due then l.resyncs + [now] else l.resyncs)
  }

  lemma SkipsCovered(l: Line, l': Line, now: int)
    requires Debounced(l) && Lag(l, l', now)
    ensures forall i | 0 <= i < |l'.skips| :: Covers(l'.resyncs, l'.skips[i].at)
  {
    forall i | 0 <= i < |l'.skips|
      ensures Covers(l'.resyncs, l'.skips[i].at)
    {
      if i < |l.skips| {
        assert l'.skips[i] == l.skips[i];
        var r :| 0 <= r < |l.resyncs| && l.skips[i].at - RESYNC_DEBOUNCE < l.resyncs[r] <= l.skips[i].at;
        assert l'.resyncs[r] == l.resyncs[r];
      } else {
        assert l'.resyncs[|l'.resyncs| - 1] == l'.lastResync.value;
      }
    }
  }

  lemma ResyncsApart(l: Line, l': Line, now: int)
    requires Debounced(l) && Lag(l, l', now)
    ensures forall i, j | 0 <= i < j < |l'.resyncs| :: l'.resyncs[j] - l'.resyncs[i] >= RESYNC_DEBOUNCE
  {
    var n := |l.resyncs|;
    assert forall i | 0 <= i < n :: l'.resyncs[i] == l.resyncs[i] && l.resyncs[i] <= l.resyncs[n - 1];
  }

  /** Every run of every connection: nothing is lost without being recorded, the durable
      stream is in publication order, and skips are covered by debounced resyncs. */
  lemma {:induction false} EveryRunDelivers(cfg: Config, published: seq<Msg>, start: int, script: seq<Arrival>)
    requires Valid(cfg)
    ensures var l := Sent(cfg, Subscribed(published, start), script);
            Accounted(l, |published|) && Faithful(cfg, l) && Debounced(l)
  {
    if script != [] {
      var front := script[..|script| - 1];
      EveryRunDelivers(cfg, published, start, front);
      var l := Sent(cfg, Subscribed(published, start), front);
      NextAccounted(cfg, l, script[|script| - 1], |published|);
      NextFaithful(cfg, l, script[|script| - 1]);
      NextDebounced(cfg, l, script[|script| - 1]);
    }
  }

  /** All deliverable messages of an interval of the stream, in order. */
  function Stream(cfg: Config, published: seq<Msg>, lo: nat, hi: nat): seq<Msg>
    requires hi <= |published|
    decreases hi
  {
    if hi <= lo then []
    else Stream(cfg, published, lo, hi - 1) + if Deliverable(cfg, published[hi - 1]) then [published[hi - 1]] else []
  }

  /** A connection that never lagged delivered everything, and asked for no resync. */
  lemma NoLagIsComplete(cfg: Config, published: seq<Msg>, start: int, script: seq<Arrival>)
    requires Valid(cfg)
    requires Sent(cfg, Subscribed(published, start), script).skips == []
    ensures var l := Sent(cfg, Subscribed(published, start), script);
            && |published| <= l.ring.pos <= |l.ring.published|
            && Durables(l.items) == Stream(cfg, l.ring.published, |published|, l.ring.pos)
  {
    EveryRunDelivers(cfg, published, start, script);
    var l := Sent(cfg, Subscribed(published, start), script);
    AllTaken(cfg, l.ring.published, l.taken, |published|, l.ring.pos);
  }

  lemma LastIsLargest(at: seq<nat>, lo: nat, hi: nat, k: nat)
    requires Increasing(at, lo, hi) && k < |at|
    ensures at[k] <= at[|at| - 1]
  {
  }

  /** The only increasing list of all the positions of an interval picks its whole stream. */
  lemma {:induction false} AllTaken(cfg: Config, published: seq<Msg>, at: seq<nat>, lo: nat, hi: nat)
    requires lo <= hi <= |published| && Increasing(at, lo, hi)
    requires forall p | lo <= p < hi :: p in at
    ensures Picked(cfg, published, at) == Stream(cfg, published, lo, hi)
    decreases hi
  {
    if lo == hi {
      assert at == [];
    } else {
      assert hi - 1 in at;
      var k :| 0 <= k < |at| && at[k] == hi - 1;
      assert at[|at| - 1] >= at[k] by { LastIsLargest(at, lo, hi, k); }
      var front := at[..|at| - 1];
      forall p | lo <= p < hi - 1
        ensures p in front
      {
        assert p in at;
        var j :| 0 <= j < |at| && at[j] == p;
        assert front[j] == p;
      }
      AllTaken(cfg, published, front, lo, hi - 1);
    }
  }
}
