/** The preview renderer: one actor, a child process that answers requests over a pipe, and
    temp files for the bodies.

    Replies on the pipe carry no request id. A child the actor gave up on is killed, but until
    the signal lands it runs on, so its reads, writes and replies interleave with everything
    the actor and the next child do. The child is taken to answer each request with one line,
    in order, and to say `ok` only after writing the output file. */
module RenderActor {
  import opened Wrappers

  type Blob = seq<int>

  datatype Job = Job(snapshot: Blob, maxPx: int, jpeg: bool)

  /** What the renderer draws for a snapshot, size and format. */
  type Draw = (Blob, int, bool) -> Blob

  function Own(draw: Draw, job: Job): Blob {
    draw(job.snapshot, job.maxPx, job.jpeg)
  }

  datatype Path = In(id: nat) | Out(id: nat, jpeg: bool)

  /** A request names its files by the job counter. */
  datatype Request = Request(id: nat, maxPx: int, jpeg: bool)

  /** `{"ok":true}`, another JSON answer, or a line that does not parse. */
  datatype Line = Done | Refused | Garbled

  datatype Answer = Answer(request: Request, line: Line)

  /** A child with its two pipes; `work` is a request it has carried out but not answered. */
  datatype Proc = Proc(inbox: seq<Request>, work: Option<Answer>, outbox: seq<Line>, alive: bool)

  datatype Phase = Idle | Spawning | Writing | Sending | Reading | Fetching

  /** Job number k (from 1) is `submitted[k-1]`; `counter` is the last one taken. */
  datatype State = State(
    submitted: seq<Job>, counter: nat, phase: Phase, daemon: Option<nat>,
    procs: map<nat, Proc>, files: map<Path, Blob>, replies: seq<Result<Blob, string>>)

  datatype Step =
    | Submit(job: Job)
    | Take
    | Spawned(pid: nat, ok: bool)
    | WriteInput(ok: bool)
    | Send(ok: bool)
    | ReadLine
    | GiveUp
    | Fetch(ok: bool)
    | ChildRender(pid: nat, ok: bool, garbled: bool)
    | ChildReply(pid: nat)
    | ChildDies(pid: nat)

  // ---- the actor ----

  function CurrentRequest(s: State): Request
    requires 0 < s.counter <= |s.submitted|
  {
    var job := s.submitted[s.counter - 1];
    Request(s.counter, job.maxPx, job.jpeg)
  }

  /** A failed exchange drops the child and answers the job with an error. */
  function FailJob(s: State, removed: set<Path>): State {
    s.(phase := Idle, daemon := None, files := s.files - removed, replies := s.replies + [Failure("render failed")])
  }

  function Busy(s: State): bool {
    0 < s.counter <= |s.submitted| && s.daemon.Some? && s.daemon.value in s.procs
  }

  function ActorStep(s: State, step: Step): State {
    match step
    case Submit(job) => s.(submitted := s.submitted + [job])
    case Take =>
      if s.phase != Idle || s.counter >= |s.submitted| then s
      else s.(counter := s.counter + 1, phase := if s.daemon.None? then Spawning else Writing)
    case Spawned(pid, ok) =>
      if s.phase != Spawning || pid in s.procs then s
      else if !ok then FailJob(s, {})
      else s.(phase := Writing, daemon := Some(pid), procs := s.procs[pid := Proc([], None, [], true)])
    case WriteInput(ok) =>
      if s.phase != Writing || !Busy(s) then s
      else if !ok then FailJob(s, {})
      else s.(phase := Sending, files := s.files[In(s.counter) := s.submitted[s.counter - 1].snapshot])
    case Send(ok) =>
      if s.phase != Sending || !Busy(s) then s
      else if !ok then FailJob(s, {In(s.counter)})
      else
        var p := s.procs[s.daemon.value];
        s.(phase := Reading, procs := s.procs[s.daemon.value := p.(inbox := p.inbox + [CurrentRequest(s)])])
    case ReadLine =>
      if s.phase != Reading || !Busy(s) || s.procs[s.daemon.value].outbox == [] then s
      else
        var p := s.procs[s.daemon.value];
        var s' := s.(files := s.files - {In(s.counter)}, procs := s.procs[s.daemon.value := p.(outbox := p.outbox[1..])]);
        (match p.outbox[0]
         case Done => s'.(phase := Fetching)
         case Refused => FailJob(s', {Out(s.counter, CurrentRequest(s).jpeg)})
         case Garbled => FailJob(s', {}))
    case GiveUp => if s.phase != Reading || !Busy(s) then s else FailJob(s, {In(s.counter)})
    case Fetch(ok) =>
      if s.phase != Fetching || !Busy(s) then s
      else
        var out := Out(s.counter, CurrentRequest(s).jpeg);
        if !ok || out !in s.files then FailJob(s, {})
        else s.(phase := Idle, files := s.files - {out}, replies := s.replies + [Success(s.files[out])])
    case _ => s
  }

  // ---- children ----

  /** Takes the next request: reads its input file and writes its output file, or fails. */
  function Rendered(draw: Draw, s: State, pid: nat, ok: bool, garbled: bool): State
    requires pid in s.procs && s.procs[pid].inbox != []
  {
    var p := s.procs[pid];
    var r := p.inbox[0];
    var done := ok && In(r.id) in s.files;
    var line := if garbled then Garbled else if done then Done else Refused;
    s.(procs := s.procs[pid := Proc(p.inbox[1..], Some(Answer(r, line)), p.outbox, true)],
       files := if done then s.files[Out(r.id, r.jpeg) := draw(s.files[In(r.id)], r.maxPx, r.jpeg)] else s.files)
  }

  function ChildStep(draw: Draw, s: State, step: Step): State {
    match step
    case ChildRender(pid, ok, garbled) =>
      if pid !in s.procs || !s.procs[pid].alive || s.procs[pid].work.Some? || s.procs[pid].inbox == [] then s
      else Rendered(draw, s, pid, ok, garbled)
    case ChildReply(pid) =>
      if pid !in s.procs || !s.procs[pid].alive || s.procs[pid].work.None? then s
      else
        var p := s.procs[pid];
        s.(procs := s.procs[pid := Proc(p.inbox, None, p.outbox + [p.work.value.line], true)])
    case ChildDies(pid) =>
      if pid !in s.procs then s else s.(procs := s.procs[pid := s.procs[pid].(alive := false)])
    case _ => s
  }

  function Do(draw: Draw, s: State, step: Step): State {
    if step.ChildRender? || step.ChildReply? || step.ChildDies? then ChildStep(draw, s, step) else ActorStep(s, step)
  }

  const Start: State := State([], 0, Idle, None, map[], map[], [])

  function Run(draw: Draw, steps: seq<Step>): State {
    if steps == [] then Start else Do(draw, Run(draw, steps[..|steps| - 1]), steps[|steps| - 1])
  }

  // ---- invariant ----

  predicate Quiet(p: Proc) {
    p.inbox == [] && p.work.None? && p.outbox == []
  }

  predicate Counts(s: State) {
    && s.counter <= |s.submitted|
    && |s.replies| == (if s.phase == Idle then s.counter else s.counter - 1)
    && (s.daemon.Some? ==> s.daemon.value in s.procs)
    && (s.phase != Idle && s.phase != Spawning ==> s.daemon.Some?)
    && (s.phase == Spawning ==> s.daemon.None?)
  }

  predicate Answered(draw: Draw, s: State) {
    forall k | 0 <= k < |s.replies| && k < |s.submitted| ::
      s.replies[k].Success? ==> s.replies[k].value == Own(draw, s.submitted[k])
  }

  /** The requests a child still holds are older than `bound`. */
  predicate Older(p: Proc, bound: nat) {
    && (forall i | 0 <= i < |p.inbox| :: p.inbox[i].id < bound)
    && (p.work.Some? ==> p.work.value.request.id < bound)
  }

  /** Children the actor gave up on hold only requests of finished jobs. */
  predicate Abandoned(s: State) {
    forall pid | pid in s.procs && s.daemon != Some(pid) ::
      Older(s.procs[pid], if s.phase == Idle then s.counter + 1 else s.counter)
  }

  /** The output file of the current job holds its own picture. */
  predicate OutputReady(draw: Draw, s: State)
    requires 0 < s.counter <= |s.submitted|
  {
    var job := s.submitted[s.counter - 1];
    Out(s.counter, job.jpeg) in s.files ==> s.files[Out(s.counter, job.jpeg)] == Own(draw, job)
  }

  /** A kept child owes nothing; while the actor reads, it owes exactly the current answer. */
  predicate Owed(draw: Draw, s: State)
    requires Counts(s)
  {
    && (s.daemon.Some? && s.phase != Reading ==> Quiet(s.procs[s.daemon.value]))
    && (s.phase == Fetching ==> 0 < s.counter && OutputReady(draw, s))
    && ((s.phase == Reading || s.phase == Sending) ==>
          0 < s.counter && In(s.counter) in s.files && s.files[In(s.counter)] == s.submitted[s.counter - 1].snapshot)
    && (s.phase == Reading ==>
          var p := s.procs[s.daemon.value];
          || (p.inbox == [CurrentRequest(s)] && p.work.None? && p.outbox == [])
          || (p.inbox == [] && p.work.Some? && p.work.value.request == CurrentRequest(s) && p.outbox == []
              && (p.work.value.line == Done ==> OutputReady(draw, s)))
          || (p.inbox == [] && p.work.None? && |p.outbox| == 1
              && (p.outbox[0] == Done ==> OutputReady(draw, s))))
  }

  predicate Inv(draw: Draw, s: State) {
    Counts(s) && Answered(draw, s) && Abandoned(s) && Owed(draw, s)
  }

  lemma ActorKeeps(draw: Draw, s: State, step: Step)
    requires Inv(draw, s) && !step.ChildRender? && !step.ChildReply? && !step.ChildDies?
    ensures Inv(draw, ActorStep(s, step))
  {
  }

  lemma ChildKeeps(draw: Draw, s: State, step: Step)
    requires Inv(draw, s) && (step.ChildRender? || step.ChildReply? || step.ChildDies?)
    ensures Inv(draw, ChildStep(draw, s, step))
  {
  }

  lemma {:induction false} RunKeeps(draw: Draw, steps: seq<Step>)
    ensures Inv(draw, Run(draw, steps))
  {
    if steps != [] {
      RunKeeps(draw, steps[..|steps| - 1]);
      var last := steps[|steps| - 1];
      if last.ChildRender? || last.ChildReply? || last.ChildDies? {
        ChildKeeps(draw, Run(draw, steps[..|steps| - 1]), last);
      } else {
        ActorKeeps(draw, Run(draw, steps[..|steps| - 1]), last);
      }
    }
  }

  // ---- guarantees ----

  /** Over every run of timeouts, deaths, respawns and late writes of abandoned children, jobs
      are answered in submission order, each with an error or the picture of its own
      snapshot, size and format. */
  lemma EveryReplyIsOwn(draw: Draw, steps: seq<Step>)
    ensures var s := Run(draw, steps);
            && |s.replies| <= |s.submitted|
            && (s.phase == Idle ==> |s.replies| == s.counter)
            && (forall k | 0 <= k < |s.replies| ::
                  s.replies[k].Failure? || s.replies[k] == Success(Own(draw, s.submitted[k])))
  {
    RunKeeps(draw, steps);
  }

  /** Whenever a child is kept between jobs, both of its pipes are empty and it is idle. */
  lemma KeptChildIsQuiet(draw: Draw, steps: seq<Step>)
    requires var s := Run(draw, steps); s.phase == Idle && s.daemon.Some?
    ensures var s := Run(draw, steps); s.daemon.value in s.procs && Quiet(s.procs[s.daemon.value])
  {
    RunKeeps(draw, steps);
  }

  // ---- the actor loop ----

  /** What happens around one job: which operations work, whether a line arrives before the
      deadline, and what the children do meanwhile. */
  datatype Luck = Luck(spawns: bool, writes: bool, sends: bool, answers: bool, fetches: bool,
                       before: seq<Step>, during: seq<Step>, after: seq<Step>)

  /** The actor's own part of the state, which no child step touches. */
  predicate SameActor(s: State, s': State) {
    && s'.phase == s.phase && s'.counter == s.counter && s'.replies == s.replies && s'.submitted == s.submitted
    && s'.daemon == s.daemon && s'.procs.Keys == s.procs.Keys
  }

  /** Children run while the actor waits. */
  method Meanwhile(draw: Draw, s0: State, steps: seq<Step>) returns (s: State)
    requires Inv(draw, s0)
    ensures Inv(draw, s) && SameActor(s0, s)
  {
    s := s0;
    for i := 0 to |steps|
      invariant Inv(draw, s) && SameActor(s0, s)
    {
      if steps[i].ChildRender? || steps[i].ChildReply? || steps[i].ChildDies? {
        ChildKeeps(draw, s, steps[i]);
        s := ChildStep(draw, s, steps[i]);
      }
    }
  }

  /** `Daemon::render` with the actor's reaction to its result, for the job just taken. */
  method RenderJob(draw: Draw, s0: State, luck: Luck) returns (s: State)
    requires Inv(draw, s0) && s0.phase == Writing && 0 < s0.counter
    ensures Inv(draw, s) && s.phase == Idle
    ensures s.counter == s0.counter && s.submitted == s0.submitted && s.procs.Keys == s0.procs.Keys
  {
    ActorKeeps(draw, s0, WriteInput(luck.writes));
    s := ActorStep(s0, WriteInput(luck.writes));
    if !luck.writes { return; }
    ActorKeeps(draw, s, Send(luck.sends));
    s := ActorStep(s, Send(luck.sends));
    if luck.sends {
      s := AwaitAnswer(draw, s, luck);
    }
  }

  /** From the request on the pipe to the job's reply. */
  method AwaitAnswer(draw: Draw, s0: State, luck: Luck) returns (s: State)
    requires Inv(draw, s0) && s0.phase == Reading && 0 < s0.counter
    ensures Inv(draw, s) && s.phase == Idle
    ensures s.counter == s0.counter && s.submitted == s0.submitted && s.procs.Keys == s0.procs.Keys
  {
    s := Meanwhile(draw, s0, luck.during);
    if !luck.answers || s.procs[s.daemon.value].outbox == [] {
      ActorKeeps(draw, s, GiveUp);
      return ActorStep(s, GiveUp);
    }
    ActorKeeps(draw, s, ReadLine);
    s := ActorStep(s, ReadLine);
    if s.phase == Idle { return; }
    s := Meanwhile(draw, s, luck.after);
    ActorKeeps(draw, s, Fetch(luck.fetches));
    s := ActorStep(s, Fetch(luck.fetches));
  }

  /** The actor loop: every job is answered exactly once and in order, with an error or its own
      picture, whatever fails and whatever abandoned children still do. */
  method Actor(draw: Draw, jobs: seq<Job>, luck: seq<Luck>) returns (replies: seq<Result<Blob, string>>)
    requires |luck| == |jobs|
    ensures |replies| == |jobs|
    ensures forall k | 0 <= k < |jobs| :: replies[k].Failure? || replies[k] == Success(Own(draw, jobs[k]))
  {
    var s := Start;
    for i := 0 to |jobs|
      invariant Inv(draw, s) && s.phase == Idle && s.counter == i && s.submitted == jobs[..i]
      invariant forall pid | pid in s.procs :: pid < i
    {
      ActorKeeps(draw, s, Submit(jobs[i]));
      s := ActorStep(s, Submit(jobs[i]));
      ActorKeeps(draw, s, Take);
      s := ActorStep(s, Take);
      s := Meanwhile(draw, s, luck[i].before);
      if s.daemon.None? {
        ActorKeeps(draw, s, Spawned(i, luck[i].spawns));
        s := ActorStep(s, Spawned(i, luck[i].spawns));
        if !luck[i].spawns { continue; }
      }
      s := RenderJob(draw, s, luck[i]);
    }
    assert jobs[..|jobs|] == jobs;
    replies := s.replies;
  }
}
