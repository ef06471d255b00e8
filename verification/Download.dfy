/** The parallel download of run_download (src/proxchunk.cpp:572-994) as a state machine.

    One action is one atomic operation of one thread: a lock-held block, one operation on an
    atomic variable, one call into the daemon client, or one write to a part file. Any
    interleaving of the actions of the workers and the main thread is a run. */
module Download {
  import opened Wrappers
  import opened Planner
  import opened PartFiles

  const MAX_PROXIES := 32
  const CHUNK_TRIES := 3

  type Url = string

  /** What is fixed for a run. `direct` is the --direct option, `hasClient` says whether a
      daemon client was passed. */
  datatype Config = Config(plan: seq<Chunk>, size: int, remote: Bytes, direct: bool, hasClient: bool) {
    predicate Valid() { Covers(plan, size) && size <= |remote| }

    function Want(i: nat): int requires i < |plan| { Planner.Want(plan[i]) }

    /** The bytes chunk i is meant to hold. */
    function Range(i: nat): Bytes
      requires Valid() && i < |plan|
    {
      Bounds(i);
      remote[plan[i].start..plan[i].end + 1]
    }

    lemma Bounds(i: nat)
      requires Valid() && i < |plan|
      ensures 0 <= plan[i].start <= plan[i].end < size
    {
      if i > 0 { StartsIncrease(plan, size, 0, i); }
      if i < |plan| - 1 { StartsIncrease(plan, size, i, |plan| - 1); }
    }
  }

  /** A queued piece of work; its chunk is plan[id]. */
  datatype Job = Job(id: nat, attempts: nat, tried: seq<Url>)

  /** Where a worker thread stands. */
  datatype Pc =
    | Top                           // head of the loop
    | Opening                       // saw a job, entered open_pipe
    | DirectInit                    // won the direct slot, creating the handle
    | Asking                        // lost the direct slot, calling the daemon
    | ProxyInit(url: Url)           // got a lease, creating the handle
    | Ready                         // open_pipe returned true
    | Claimed(job: Job)             // took a job from the queue
    | Fetching(job: Job, have: nat) // transfer running; `have` bytes were on disk before
    | Judged(job: Job, ok: bool)    // download_chunk returned
    | Counted                       // finished was incremented
    | Dropped(job: Job)             // failed attempt, pipe dropped
    | Leaving                       // about to decrement inflight
    | Exited

  datatype Worker = Worker(pc: Pc, pipe: Option<Url>, direct: bool)

  datatype MainPc =
    | Waiting
    | Seen(finished: int)           // loaded finished, about to load failed
    | Joining
    | Joined
    | Ended(ok: bool, output: Option<Bytes>)

  /** History: where each chunk is. The program itself keeps only counters. */
  datatype Place = Queued | Held(worker: nat) | Done | Lost

  /** `place` and `proxied` (proxied attempts started per chunk) are history variables. */
  datatype State = State(
    queue: seq<Job>,
    inflight: int,
    finished: int,
    failed: int,
    directBusy: bool,
    parts: seq<Part>,
    workers: seq<Worker>,
    leases: multiset<Url>,
    main: MainPc,
    place: seq<Place>,
    proxied: seq<nat>)

  /** What a worker can do next; the arguments are the environment's choices. */
  datatype Op =
    | Peek
    | TryOpen
    | Ask(granted: Option<Url>)
    | InitHandle(created: bool)
    | Claim
    | Begin(canOpen: bool)
    | Receive(bytes: Bytes)
    | End(code: int)
    | Tally
    | Drop
    | Decide
    | Leave

  datatype Action =
    | Work(w: nat, op: Op)
    | MainLoad
    | MainTest
    | MainJoin
    | MainAssemble(canOpen: bool, kept: nat)

  function HeldJob(pc: Pc): Option<Job> {
    match pc
    case Claimed(job) => Some(job)
    case Fetching(job, _) => Some(job)
    case Judged(job, _) => Some(job)
    case Dropped(job) => Some(job)
    case _ => None
  }

  predicate JobInPlan(c: Config, pc: Pc) {
    HeldJob(pc).Some? ==> HeldJob(pc).value.id < |c.plan|
  }

  /** Between the increment and the decrement of inflight. */
  predicate InFlight(w: Worker) {
    w.pc.Claimed? || w.pc.Fetching? || w.pc.Judged? || w.pc.Counted? || w.pc.Dropped? || w.pc.Leaving?
  }

  predicate Settled(p: Place) { p.Done? || p.Lost? }

  /** The sizes and indices a state must have to be a state of this run at all. */
  predicate Shaped(c: Config, s: State) {
    && |s.parts| == |s.place| == |s.proxied| == |c.plan|
    && (forall k :: 0 <= k < |s.queue| ==> s.queue[k].id < |c.plan|)
    && (forall w :: 0 <= w < |s.workers| ==> JobInPlan(c, s.workers[w].pc))
  }

  // ---- the actions ----

  function Move(s: State, w: nat, pc: Pc): State
    requires w < |s.workers|
  {
    s.(workers := s.workers[w := s.workers[w].(pc := pc)])
  }

  /** The lambda drop_pipe, followed by a jump to `pc`. */
  function DropPipe(c: Config, s: State, w: nat, pc: Pc): State
    requires w < |s.workers|
  {
    var x := s.workers[w];
    s.(leases := if x.pipe.Some? then s.leases - multiset{x.pipe.value} else s.leases,
       directBusy := s.directBusy && !x.direct,
       workers := s.workers[w := Worker(pc, None, false)])
  }

  /** The first lock-held block of the loop: leave, look again, or go for a pipe. */
  function DoPeek(c: Config, s: State, w: nat): State
    requires w < |s.workers|
  {
    if s.queue != [] then Move(s, w, Opening)
    else if s.inflight == 0 then DropPipe(c, s, w, Exited)
    else s
  }

  /** open_pipe up to the exchange on direct_busy, which --direct skips. */
  function DoTryOpen(c: Config, s: State, w: nat): State
    requires w < |s.workers|
  {
    var t := DropPipe(c, s, w, Opening);
    if c.direct then Move(t, w, DirectInit)
    else if !t.directBusy then Move(t, w, DirectInit).(directBusy := true)
    else if !c.hasClient then Move(t, w, Top)
    else Move(t, w, Asking)
  }

  function DoAsk(c: Config, s: State, w: nat, granted: Option<Url>): State
    requires w < |s.workers|
  {
    if granted.None? then Move(s, w, Top)
    else Move(s, w, ProxyInit(granted.value)).(leases := s.leases + multiset{granted.value})
  }

  function DoInit(c: Config, s: State, w: nat, created: bool): Option<State>
    requires w < |s.workers|
  {
    match s.workers[w].pc
    case DirectInit =>
      if created then Some(s.(workers := s.workers[w := Worker(Ready, s.workers[w].pipe, true)]))
      else Some(Move(s, w, Top).(directBusy := false))
    case ProxyInit(url) =>
      if created then Some(s.(workers := s.workers[w := Worker(Ready, Some(url), s.workers[w].direct)]))
      else Some(Move(s, w, Top).(leases := s.leases - multiset{url}))
    case _ => None
  }

  /** The second lock-held block: take the front job, or give the pipe back. A proxied
      attempt is entered in the job's tried list. */
  function DoClaim(c: Config, s: State, w: nat): State
    requires Shaped(c, s) && w < |s.workers|
  {
    if s.queue == [] then DropPipe(c, s, w, Top)
    else
      var job, pipe := s.queue[0], s.workers[w].pipe;
      var taken := if pipe.Some? then job.(tried := job.tried + [pipe.value]) else job;
      Move(s, w, Claimed(taken)).(
        queue := s.queue[1..],
        inflight := s.inflight + 1,
        place := s.place[job.id := Held(w)],
        proxied := if pipe.Some? then s.proxied[job.id := s.proxied[job.id] + 1] else s.proxied)
  }

  /** download_chunk up to the transfer. */
  function DoBegin(c: Config, s: State, w: nat, job: Job, canOpen: bool): State
    requires Shaped(c, s) && w < |s.workers| && job.id < |c.plan|
  {
    var part := s.parts[job.id];
    if Size(part) >= c.Want(job.id) then Move(s, w, Judged(job, true))
    else if !canOpen then Move(s, w, Judged(job, false))
    else Move(s, w, Fetching(job, Size(part))).(parts := s.parts[job.id := Opened(part)])
  }

  function DoReceive(c: Config, s: State, w: nat, job: Job, bytes: Bytes): State
    requires Shaped(c, s) && job.id < |c.plan|
  {
    s.(parts := s.parts[job.id := Some(Content(s.parts[job.id]) + bytes)])
  }

  /** download_chunk after the transfer. */
  function DoEnd(c: Config, s: State, w: nat, job: Job, have: nat, code: int): State
    requires Shaped(c, s) && w < |s.workers| && job.id < |c.plan| && have <= Size(s.parts[job.id])
  {
    var (ok, part) := Settle(Content(s.parts[job.id]), have, c.Want(job.id), code);
    Move(s, w, Judged(job, ok)).(parts := s.parts[job.id := part])
  }

  function DoTally(c: Config, s: State, w: nat, job: Job): State
    requires Shaped(c, s) && w < |s.workers| && job.id < |c.plan|
  {
    Move(s, w, Counted).(finished := s.finished + 1, place := s.place[job.id := Done])
  }

  function DoDrop(c: Config, s: State, w: nat): Option<State>
    requires w < |s.workers|
  {
    match s.workers[w].pc
    case Counted => Some(DropPipe(c, s, w, Leaving))
    case Judged(job, false) => Some(DropPipe(c, s, w, Dropped(job)))
    case _ => None
  }

  /** Give the chunk up, or put it back at the end of the queue. */
  function DoDecide(c: Config, s: State, w: nat, job: Job): State
    requires Shaped(c, s) && w < |s.workers| && job.id < |c.plan|
  {
    var attempts := if job.attempts + 1 >= CHUNK_TRIES then 0 else job.attempts + 1;
    if |job.tried| >= MAX_PROXIES then
      Move(s, w, Leaving).(failed := s.failed + 1, place := s.place[job.id := Lost])
    else
      Move(s, w, Leaving).(queue := s.queue + [job.(attempts := attempts)],
                           place := s.place[job.id := Queued])
  }

  /** The parts of the first n chunks, one after the other; None if one is missing. */
  function Concat(parts: seq<Part>): Option<Bytes> {
    if parts == [] then Some([])
    else
      var front, last := Concat(parts[..|parts| - 1]), parts[|parts| - 1];
      if front.None? || last.None? then None else Some(front.value + last.value)
  }

  /** Assembly; `kept` is how much of what was written reached the output file. */
  function DoAssemble(c: Config, s: State, canOpen: bool, kept: nat): State {
    var all := Concat(s.parts);
    if s.failed > 0 || !canOpen || all.None? then s.(main := Ended(false, None))
    else
      var output := if kept < |all.value| then all.value[..kept] else all.value;
      s.(main := Ended(|output| == c.size, Some(output)))
  }

  /** A missing part leaves nothing to assemble. */
  lemma {:induction false} ConcatNone(parts: seq<Part>, n: nat)
    requires n <= |parts| && Concat(parts[..n]) == None
    ensures Concat(parts) == None
    decreases |parts|
  {
    if n < |parts| {
      assert parts[..|parts| - 1][..n] == parts[..n];
      ConcatNone(parts[..|parts| - 1], n);
    } else {
      assert parts[..n] == parts;
    }
  }

  /** The assembly of run_download: concatenate the parts into the output, then compare sizes. */
  method Assemble(c: Config, s: State, canOpen: bool, kept: nat) returns (ok: bool, output: Option<Bytes>)
    ensures DoAssemble(c, s, canOpen, kept).main == Ended(ok, output)
  {
    if s.failed > 0 || !canOpen {
      return false, None;
    }
    var all: Bytes := [];
    var i := 0;
    assert s.parts[..0] == [];
    while i < |s.parts|
      invariant 0 <= i <= |s.parts| && Concat(s.parts[..i]) == Some(all)
    {
      assert s.parts[..i + 1][..i] == s.parts[..i];
      if s.parts[i].None? {
        ConcatNone(s.parts, i + 1);
        return false, None;
      }
      all := all + s.parts[i].value;
      i := i + 1;
    }
    assert s.parts[..i] == s.parts;
    var out := if kept < |all| then all[..kept] else all;
    return |out| == c.size, Some(out);
  }

  /** A worker's action; None when it is not at the right place. */
  function WorkStep(c: Config, s: State, w: nat, op: Op): Option<State>
    requires Shaped(c, s) && w < |s.workers|
  {
    var pc := s.workers[w].pc;
    match op
    case Peek => if pc.Top? then Some(DoPeek(c, s, w)) else None
    case TryOpen => if pc.Opening? then Some(DoTryOpen(c, s, w)) else None
    case Ask(granted) => if pc.Asking? then Some(DoAsk(c, s, w, granted)) else None
    case InitHandle(created) => DoInit(c, s, w, created)
    case Claim => if pc.Ready? then Some(DoClaim(c, s, w)) else None
    case Begin(canOpen) => if pc.Claimed? then Some(DoBegin(c, s, w, pc.job, canOpen)) else None
    case Receive(bytes) => if pc.Fetching? then Some(DoReceive(c, s, w, pc.job, bytes)) else None
    case End(code) =>
      if pc.Fetching? && pc.have <= Size(s.parts[pc.job.id])
      then Some(DoEnd(c, s, w, pc.job, pc.have, code)) else None
    case Tally => if pc.Judged? && pc.ok then Some(DoTally(c, s, w, pc.job)) else None
    case Drop => DoDrop(c, s, w)
    case Decide => if pc.Dropped? then Some(DoDecide(c, s, w, pc.job)) else None
    case Leave => if pc.Leaving? then Some(Move(s, w, Top).(inflight := s.inflight - 1)) else None
  }

  /** The state after an action; None when the action is not enabled. */
  function Step(c: Config, s: State, a: Action): (r: Option<State>)
    requires Shaped(c, s)
  {
    match a
    case Work(w, op) => if w < |s.workers| then WorkStep(c, s, w, op) else None
    case MainLoad => if s.main.Waiting? then Some(s.(main := Seen(s.finished))) else None
    case MainTest =>
      if !s.main.Seen? then None
      else if s.main.finished + s.failed < |c.plan| then Some(s.(main := Waiting))
      else Some(s.(main := Joining))
    case MainJoin =>
      if s.main.Joining? && (forall x :: 0 <= x < |s.workers| ==> s.workers[x].pc.Exited?) then Some(s.(main := Joined))
      else None
    case MainAssemble(canOpen, kept) => if s.main.Joined? then Some(DoAssemble(c, s, canOpen, kept)) else None
  }

  function Start(c: Config, workers: nat): State {
    var n := |c.plan|;
    State(seq(n, (i: nat) => Job(i, 0, [])), 0, 0, 0, false, seq(n, _ => None),
          seq(workers, _ => Worker(Top, None, false)), multiset{}, Waiting,
          seq(n, _ => Queued), seq(n, _ => 0))
  }

}
