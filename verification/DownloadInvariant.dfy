/** What every step of the download keeps. */
module DownloadInvariant {
  import opened Wrappers
  import opened Counting
  import opened Planner
  import opened PartFiles
  import opened Download

  predicate IsDone(p: Place) { p.Done? }

  predicate IsLost(p: Place) { p.Lost? }

  /** The worker has won the direct slot and not given it back. */
  predicate OwnsSlot(x: Worker) { x.direct || x.pc.DirectInit? }

  /** The lease a worker has to give back. */
  function LeaseUrl(x: Worker): Option<Url> {
    if x.pipe.Some? then x.pipe else if x.pc.ProxyInit? then Some(x.pc.url) else None
  }

  function LeaseOf(x: Worker): multiset<Url> {
    if LeaseUrl(x).Some? then multiset{LeaseUrl(x).value} else multiset{}
  }

  function Leases(url: Url): Worker -> bool { x => LeaseUrl(x) == Some(url) }

  /** A pipe is open, by lease or through the direct slot. */
  predicate HasPipe(pc: Pc) {
    pc.Ready? || pc.Claimed? || pc.Fetching? || pc.Judged? || pc.Counted?
  }

  predicate Waits(s: State, i: nat) {
    exists k :: 0 <= k < |s.queue| && s.queue[k].id == i
  }

  /** Chunk i is where `place` says, and its part has the size that goes with that. */
  predicate ChunkOk(c: Config, s: State, i: nat)
    requires Shaped(c, s) && i < |c.plan|
  {
    && s.proxied[i] <= MAX_PROXIES
    && match s.place[i]
       case Queued => Waits(s, i) && Size(s.parts[i]) < c.Want(i) && s.proxied[i] < MAX_PROXIES
       case Held(w) =>
         && w < |s.workers|
         && HeldJob(s.workers[w].pc).Some?
         && HeldJob(s.workers[w].pc).value.id == i
       case Done => Size(s.parts[i]) >= c.Want(i)
       case Lost => Size(s.parts[i]) < c.Want(i) && s.proxied[i] == MAX_PROXIES
  }

  predicate JobOk(c: Config, s: State, w: nat, job: Job)
    requires Shaped(c, s) && w < |s.workers| && job.id < |c.plan|
  {
    && s.place[job.id] == Held(w)
    && |job.tried| == s.proxied[job.id]
    && match s.workers[w].pc
       case Fetching(_, have) => have < c.Want(job.id) && have <= Size(s.parts[job.id])
       case Judged(_, ok) => ok == (Size(s.parts[job.id]) >= c.Want(job.id))
       case _ => Size(s.parts[job.id]) < c.Want(job.id)
  }

  predicate AllSettled(s: State) { forall i :: 0 <= i < |s.place| ==> Settled(s.place[i]) }

  predicate WorkerOk(c: Config, s: State, w: nat)
    requires Shaped(c, s) && w < |s.workers|
  {
    var x := s.workers[w];
    && (HeldJob(x.pc).Some? ==> JobOk(c, s, w, HeldJob(x.pc).value))
    && (x.pc.Exited? ==> AllSettled(s))
    && (if HasPipe(x.pc) then x.pipe.Some? != x.direct else x.pipe.None? && !x.direct)
  }

  predicate QueueOk(c: Config, s: State)
    requires Shaped(c, s)
  {
    && (forall k :: 0 <= k < |s.queue| ==>
          s.place[s.queue[k].id] == Queued && |s.queue[k].tried| == s.proxied[s.queue[k].id])
    && (forall j, k :: 0 <= j < k < |s.queue| ==> s.queue[j].id != s.queue[k].id)
  }

  predicate CountersOk(c: Config, s: State) {
    && s.inflight == Count(InFlight, s.workers)
    && s.finished == Count(IsDone, s.place)
    && s.failed == Count(IsLost, s.place)
  }

  ghost predicate PipesOk(c: Config, s: State) {
    && (!c.direct ==> Count(OwnsSlot, s.workers) == if s.directBusy then 1 else 0)
    && (forall url :: s.leases[url] == Count(Leases(url), s.workers))
  }

  predicate MainOk(c: Config, s: State) {
    && (s.main.Seen? ==> s.main.finished <= s.finished)
    && (s.main.Joining? || s.main.Joined? || s.main.Ended? ==> AllSettled(s))
    && (s.main.Joined? || s.main.Ended? ==> forall x :: 0 <= x < |s.workers| ==> s.workers[x].pc.Exited?)
  }

  /** Chunks, jobs and parts agree. */
  predicate JobsOk(c: Config, s: State) {
    && c.Valid()
    && Shaped(c, s)
    && (forall i :: 0 <= i < |c.plan| ==> ChunkOk(c, s, i))
    && (forall w :: 0 <= w < |s.workers| ==> WorkerOk(c, s, w))
    && QueueOk(c, s)
  }

  ghost predicate Inv(c: Config, s: State) {
    JobsOk(c, s) && CountersOk(c, s) && PipesOk(c, s) && MainOk(c, s)
  }

  lemma StartInv(c: Config, workers: nat)
    requires c.Valid()
    ensures Inv(c, Start(c, workers))
  {
    var s := Start(c, workers);
    forall i | 0 <= i < |c.plan|
      ensures ChunkOk(c, s, i)
    {
      c.Bounds(i);
      assert s.queue[i].id == i;
    }
    CountBounds(InFlight, s.workers);
    CountBounds(OwnsSlot, s.workers);
    CountBounds(IsDone, s.place);
    CountBounds(IsLost, s.place);
    forall url
      ensures Count(Leases(url), s.workers) == 0
    {
      CountBounds(Leases(url), s.workers);
    }
  }

  /** A worker that exits leaves only settled chunks behind: an empty queue with inflight
      zero means that nobody holds a job. */
  lemma EmptyAndIdleMeansSettled(c: Config, s: State)
    requires Inv(c, s) && s.queue == [] && s.inflight == 0
    ensures AllSettled(s)
  {
    CountBounds(InFlight, s.workers);
    forall i | 0 <= i < |s.place|
      ensures Settled(s.place[i])
    {
      assert ChunkOk(c, s, i);
    }
  }

  /** A worker's step changes every sum over the workers by its own contribution. */
  predicate Accounted(c: Config, s: State, t: State, w: nat)
    requires w < |s.workers| == |t.workers|
  {
    var x, y := s.workers[w], t.workers[w];
    && t.workers == s.workers[w := y]
    && t.inflight + Bit(InFlight(x)) == s.inflight + Bit(InFlight(y))
    && (!c.direct ==> Bit(t.directBusy) + Bit(OwnsSlot(x)) == Bit(s.directBusy) + Bit(OwnsSlot(y)))
    && if LeaseUrl(x) == LeaseUrl(y) then t.leases == s.leases
       else if LeaseUrl(x).None? then t.leases == s.leases + LeaseOf(y)
       else LeaseUrl(y).None? && t.leases == s.leases - LeaseOf(x)
  }

  lemma LeasesKept(s: State, t: State, w: nat)
    requires w < |s.workers| == |t.workers| && t.workers == s.workers[w := t.workers[w]]
    requires forall url :: s.leases[url] == Count(Leases(url), s.workers)
    requires var x, y := s.workers[w], t.workers[w];
             if LeaseUrl(x) == LeaseUrl(y) then t.leases == s.leases
             else if LeaseUrl(x).None? then t.leases == s.leases + LeaseOf(y)
             else LeaseUrl(y).None? && t.leases == s.leases - LeaseOf(x)
    ensures forall url :: t.leases[url] == Count(Leases(url), t.workers)
  {
    forall url
      ensures t.leases[url] == Count(Leases(url), t.workers)
    {
      CountUpdate(Leases(url), s.workers, w, t.workers[w]);
    }
  }

  lemma SumsKept(c: Config, s: State, t: State, w: nat)
    requires w < |s.workers| == |t.workers| && CountersOk(c, s) && PipesOk(c, s)
    requires Accounted(c, s, t, w)
    requires t.finished == Count(IsDone, t.place) && t.failed == Count(IsLost, t.place)
    ensures CountersOk(c, t) && PipesOk(c, t)
  {
    CountUpdate(InFlight, s.workers, w, t.workers[w]);
    CountUpdate(OwnsSlot, s.workers, w, t.workers[w]);
    LeasesKept(s, t, w);
  }

  /** What a worker may rely on about the direct slot. */
  predicate SlotHonest(c: Config, s: State, w: nat)
    requires w < |s.workers|
  {
    !c.direct && OwnsSlot(s.workers[w]) ==> s.directBusy
  }

  lemma OwnerMeansBusy(c: Config, s: State, w: nat)
    requires w < |s.workers| && PipesOk(c, s)
    ensures SlotHonest(c, s, w)
  {
    CountBounds(OwnsSlot, s.workers);
  }

  /** A worker's step that touches no chunk: its own record may change, not the job it holds. */
  predicate Quiet(c: Config, s: State, t: State, w: nat)
    requires w < |s.workers| && Shaped(c, s)
  {
    && |t.workers| == |s.workers|
    && t.queue == s.queue && t.parts == s.parts && t.place == s.place && t.proxied == s.proxied
    && t.main == s.main && t.finished == s.finished && t.failed == s.failed
    && HeldJob(t.workers[w].pc) == HeldJob(s.workers[w].pc)
    && !s.workers[w].pc.Exited? && !s.workers[w].pc.Fetching? && !t.workers[w].pc.Fetching?
    && Accounted(c, s, t, w)
    && Shaped(c, t) && WorkerOk(c, t, w)
  }

  lemma QuietStep(c: Config, s: State, t: State, w: nat)
    requires Inv(c, s) && w < |s.workers| && Quiet(c, s, t, w)
    ensures Inv(c, t)
  {
    forall i | 0 <= i < |c.plan|
      ensures ChunkOk(c, t, i)
    {
      assert ChunkOk(c, s, i);
      if s.place[i].Queued? {
        var k :| 0 <= k < |s.queue| && s.queue[k].id == i;
        assert t.queue[k].id == i;
      }
    }
    forall v | 0 <= v < |t.workers|
      ensures WorkerOk(c, t, v)
    {
      assert WorkerOk(c, s, v);
    }
    SumsKept(c, s, t, w);
  }

  /** A worker's step on chunk i, which it holds before or after: nothing is said of any other
      chunk, so what the other workers rely on stays. */
  lemma ChunkStep(c: Config, s: State, t: State, w: nat, i: nat)
    requires JobsOk(c, s) && MainOk(c, s) && w < |s.workers| && i < |c.plan|
    requires HeldJob(s.workers[w].pc).Some? ==> HeldJob(s.workers[w].pc).value.id == i
    requires s.place[i] == Held(w) || (s.place[i] == Queued && HeldJob(s.workers[w].pc).None?)
    requires |t.workers| == |s.workers| && t.workers == s.workers[w := t.workers[w]]
    requires Shaped(c, t)
    requires t.parts == s.parts[i := t.parts[i]]
    requires t.place == s.place[i := t.place[i]]
    requires t.proxied == s.proxied[i := t.proxied[i]]
    requires t.main == s.main && t.finished >= s.finished
    requires forall j :: 0 <= j < |c.plan| && j != i && Waits(s, j) ==> Waits(t, j)
    requires ChunkOk(c, t, i) && WorkerOk(c, t, w) && QueueOk(c, t)
    requires !s.workers[w].pc.Exited?
    ensures JobsOk(c, t) && MainOk(c, t)
  {
    assert !Settled(s.place[i]);
    assert !AllSettled(s);
    forall j | 0 <= j < |c.plan|
      ensures ChunkOk(c, t, j)
    {
      assert ChunkOk(c, s, j);
    }
    forall v | 0 <= v < |t.workers|
      ensures WorkerOk(c, t, v)
    {
      assert WorkerOk(c, s, v);
    }
  }

  /** ChunkStep, with the sums over workers and chunks. */
  lemma ChunkStepInv(c: Config, s: State, t: State, w: nat, i: nat)
    requires Inv(c, s) && w < |s.workers| && i < |c.plan|
    requires HeldJob(s.workers[w].pc).Some? ==> HeldJob(s.workers[w].pc).value.id == i
    requires s.place[i] == Held(w) || (s.place[i] == Queued && HeldJob(s.workers[w].pc).None?)
    requires |t.workers| == |s.workers| && t.workers == s.workers[w := t.workers[w]]
    requires Shaped(c, t)
    requires t.parts == s.parts[i := t.parts[i]]
    requires t.place == s.place[i := t.place[i]]
    requires t.proxied == s.proxied[i := t.proxied[i]]
    requires t.main == s.main && t.finished >= s.finished
    requires forall j :: 0 <= j < |c.plan| && j != i && Waits(s, j) ==> Waits(t, j)
    requires ChunkOk(c, t, i) && WorkerOk(c, t, w) && QueueOk(c, t)
    requires !s.workers[w].pc.Exited?
    requires Accounted(c, s, t, w)
    requires t.finished + Bit(IsDone(s.place[i])) == s.finished + Bit(IsDone(t.place[i]))
    requires t.failed + Bit(IsLost(s.place[i])) == s.failed + Bit(IsLost(t.place[i]))
    ensures Inv(c, t)
  {
    ChunkStep(c, s, t, w, i);
    PlaceSums(s, i, t.place[i]);
    SumsKept(c, s, t, w);
  }

  // ---- one lemma per action of a worker ----

  lemma PeekQuiet(c: Config, s: State, w: nat)
    requires Shaped(c, s) && w < |s.workers| && WorkerOk(c, s, w) && SlotHonest(c, s, w)
    requires s.workers[w].pc.Top? && (s.queue == [] && s.inflight == 0 ==> AllSettled(s))
    ensures Quiet(c, s, DoPeek(c, s, w), w)
  {
  }

  lemma NothingToDrop(c: Config, s: State, w: nat)
    requires w < |s.workers| && s.workers[w] == Worker(Opening, None, false)
    ensures DropPipe(c, s, w, Opening) == s
  {
    assert s.workers[w := s.workers[w]] == s.workers;
  }

  lemma TryOpenQuiet(c: Config, s: State, w: nat)
    requires Shaped(c, s) && w < |s.workers| && WorkerOk(c, s, w) && SlotHonest(c, s, w)
    requires s.workers[w].pc.Opening?
    ensures Quiet(c, s, DoTryOpen(c, s, w), w)
  {
    NothingToDrop(c, s, w);
  }

  lemma AskQuiet(c: Config, s: State, w: nat, granted: Option<Url>)
    requires Shaped(c, s) && w < |s.workers| && WorkerOk(c, s, w) && SlotHonest(c, s, w)
    requires s.workers[w].pc.Asking?
    ensures Quiet(c, s, DoAsk(c, s, w, granted), w)
  {
  }

  lemma DirectInitQuiet(c: Config, s: State, w: nat, created: bool)
    requires Shaped(c, s) && w < |s.workers| && WorkerOk(c, s, w) && SlotHonest(c, s, w)
    requires s.workers[w].pc.DirectInit?
    ensures Quiet(c, s, DoInit(c, s, w, created).value, w)
  {
  }

  lemma ProxyInitQuiet(c: Config, s: State, w: nat, created: bool)
    requires Shaped(c, s) && w < |s.workers| && WorkerOk(c, s, w) && SlotHonest(c, s, w)
    requires s.workers[w].pc.ProxyInit?
    ensures Quiet(c, s, DoInit(c, s, w, created).value, w)
  {
  }

  lemma DropAccounted(c: Config, s: State, w: nat, pc: Pc)
    requires w < |s.workers| && SlotHonest(c, s, w) && HasPipe(s.workers[w].pc)
    requires s.workers[w].pipe.Some? != s.workers[w].direct
    requires !HasPipe(pc) && !pc.ProxyInit? && !pc.DirectInit?
    requires InFlight(Worker(pc, None, false)) == InFlight(s.workers[w])
    ensures Accounted(c, s, DropPipe(c, s, w, pc), w)
  {
  }

  lemma DropPipeQuiet(c: Config, s: State, w: nat, pc: Pc)
    requires Shaped(c, s) && w < |s.workers| && WorkerOk(c, s, w) && SlotHonest(c, s, w)
    requires s.workers[w].pc.Counted? || s.workers[w].pc.Judged?
    requires !HasPipe(pc) && HeldJob(pc) == HeldJob(s.workers[w].pc) && InFlight(Worker(pc, None, false))
    requires pc.Dropped? ==> s.workers[w].pc == Judged(pc.job, false)
    ensures Quiet(c, s, DropPipe(c, s, w, pc), w)
  {
    DropAccounted(c, s, w, pc);
  }

  lemma LeaveQuiet(c: Config, s: State, w: nat)
    requires Shaped(c, s) && w < |s.workers| && WorkerOk(c, s, w) && SlotHonest(c, s, w)
    requires s.workers[w].pc.Leaving?
    ensures Quiet(c, s, Move(s, w, Top).(inflight := s.inflight - 1), w)
  {
  }

  lemma ReturnQuiet(c: Config, s: State, w: nat)
    requires Shaped(c, s) && w < |s.workers| && WorkerOk(c, s, w) && SlotHonest(c, s, w)
    requires s.workers[w].pc.Ready? && s.queue == []
    ensures Quiet(c, s, DoClaim(c, s, w), w)
  {
    DropAccounted(c, s, w, Top);
  }

  lemma CannotOpenQuiet(c: Config, s: State, w: nat, job: Job)
    requires Shaped(c, s) && w < |s.workers| && WorkerOk(c, s, w) && SlotHonest(c, s, w)
    requires s.workers[w].pc == Claimed(job)
    ensures JobInPlan(c, Claimed(job)) && Quiet(c, s, DoBegin(c, s, w, job, false), w)
  {
  }

  /** The place of one chunk changes: what that does to the two counters. */
  lemma PlaceSums(s: State, i: nat, p: Place)
    requires i < |s.place|
    ensures Count(IsDone, s.place[i := p]) + Bit(IsDone(s.place[i])) == Count(IsDone, s.place) + Bit(IsDone(p))
    ensures Count(IsLost, s.place[i := p]) + Bit(IsLost(s.place[i])) == Count(IsLost, s.place) + Bit(IsLost(p))
  {
    CountUpdate(IsDone, s.place, i, p);
    CountUpdate(IsLost, s.place, i, p);
  }

  lemma ClaimKeeps(c: Config, s: State, w: nat)
    requires Inv(c, s) && w < |s.workers| && s.workers[w].pc.Ready? && s.queue != []
    ensures Inv(c, DoClaim(c, s, w))
  {
    var t := DoClaim(c, s, w);
    assert WorkerOk(c, s, w);
    var i := s.queue[0].id;
    assert ChunkOk(c, s, i);
    forall j | 0 <= j < |c.plan| && j != i && Waits(s, j)
      ensures Waits(t, j)
    {
      var k :| 0 <= k < |s.queue| && s.queue[k].id == j;
      assert t.queue[k - 1].id == j;
    }
    ChunkStepInv(c, s, t, w, i);
  }

  lemma BeginKeeps(c: Config, s: State, w: nat, job: Job)
    requires Inv(c, s) && w < |s.workers| && s.workers[w].pc == Claimed(job)
    ensures job.id < |c.plan| && Inv(c, DoBegin(c, s, w, job, true))
  {
    assert WorkerOk(c, s, w);
    assert ChunkOk(c, s, job.id);
    var t := DoBegin(c, s, w, job, true);
    ChunkStepInv(c, s, t, w, job.id);
  }

  lemma ReceiveKeeps(c: Config, s: State, w: nat, job: Job, bytes: Bytes)
    requires Inv(c, s) && w < |s.workers| && s.workers[w].pc.Fetching? && s.workers[w].pc.job == job
    ensures job.id < |c.plan| && Inv(c, DoReceive(c, s, w, job, bytes))
  {
    assert WorkerOk(c, s, w);
    assert ChunkOk(c, s, job.id);
    var t := DoReceive(c, s, w, job, bytes);
    assert t.workers == s.workers[w := t.workers[w]];
    ChunkStepInv(c, s, t, w, job.id);
  }

  lemma EndLocal(c: Config, s: State, w: nat, job: Job, have: nat, code: int)
    requires JobsOk(c, s) && w < |s.workers| && s.workers[w].pc == Fetching(job, have)
    ensures job.id < |c.plan| && have <= Size(s.parts[job.id])
    ensures var t := DoEnd(c, s, w, job, have, code);
            Shaped(c, t) && ChunkOk(c, t, job.id) && WorkerOk(c, t, w) && QueueOk(c, t)
  {
    assert WorkerOk(c, s, w);
    assert ChunkOk(c, s, job.id);
  }

  lemma EndKeeps(c: Config, s: State, w: nat, job: Job, have: nat, code: int)
    requires Inv(c, s) && w < |s.workers| && s.workers[w].pc == Fetching(job, have)
    ensures job.id < |c.plan| && have <= Size(s.parts[job.id]) && Inv(c, DoEnd(c, s, w, job, have, code))
  {
    EndLocal(c, s, w, job, have, code);
    assert WorkerOk(c, s, w);
    ChunkStepInv(c, s, DoEnd(c, s, w, job, have, code), w, job.id);
  }

  lemma TallyKeeps(c: Config, s: State, w: nat, job: Job)
    requires Inv(c, s) && w < |s.workers| && s.workers[w].pc == Judged(job, true)
    ensures job.id < |c.plan| && Inv(c, DoTally(c, s, w, job))
  {
    assert WorkerOk(c, s, w);
    assert ChunkOk(c, s, job.id);
    var t := DoTally(c, s, w, job);
    ChunkStepInv(c, s, t, w, job.id);
  }

  lemma GiveUpKeeps(c: Config, s: State, w: nat, job: Job)
    requires Inv(c, s) && w < |s.workers| && s.workers[w].pc == Dropped(job) && |job.tried| >= MAX_PROXIES
    ensures job.id < |c.plan| && Inv(c, DoDecide(c, s, w, job))
  {
    assert WorkerOk(c, s, w);
    assert ChunkOk(c, s, job.id);
    var t := DoDecide(c, s, w, job);
    ChunkStepInv(c, s, t, w, job.id);
  }

  lemma RequeuedWaits(s: State, t: State, job: Job, j: nat)
    requires |t.queue| == |s.queue| + 1 && t.queue[..|s.queue|] == s.queue && t.queue[|s.queue|].id == job.id
    ensures Waits(s, j) || j == job.id ==> Waits(t, j)
  {
    if Waits(s, j) {
      var k :| 0 <= k < |s.queue| && s.queue[k].id == j;
      assert t.queue[..|s.queue|][k].id == j;
    }
  }

  lemma RequeuedQueue(c: Config, s: State, w: nat, t: State, job: Job)
    requires Shaped(c, s) && Shaped(c, t) && QueueOk(c, s) && job.id < |c.plan| && s.place[job.id] == Held(w)
    requires |t.queue| == |s.queue| + 1 && t.queue[..|s.queue|] == s.queue && t.queue[|s.queue|].id == job.id
    requires |t.queue[|s.queue|].tried| == s.proxied[job.id]
    requires t.proxied == s.proxied && t.place == s.place[job.id := Queued]
    ensures QueueOk(c, t)
  {
    forall k | 0 <= k < |s.queue|
      ensures t.queue[k] == s.queue[k] && t.queue[k].id != job.id
    {
      assert s.place[s.queue[k].id] == Queued;
    }
  }

  lemma RequeueLocal(c: Config, s: State, w: nat, job: Job)
    requires JobsOk(c, s) && w < |s.workers| && s.workers[w].pc == Dropped(job) && |job.tried| < MAX_PROXIES
    ensures job.id < |c.plan|
    ensures var t := DoDecide(c, s, w, job);
            && Shaped(c, t) && ChunkOk(c, t, job.id) && WorkerOk(c, t, w) && QueueOk(c, t)
            && forall j :: 0 <= j < |c.plan| && Waits(s, j) ==> Waits(t, j)
  {
    assert WorkerOk(c, s, w);
    var t := DoDecide(c, s, w, job);
    assert t.queue[..|s.queue|] == s.queue;
    forall j | 0 <= j < |c.plan|
      ensures Waits(s, j) || j == job.id ==> Waits(t, j)
    {
      RequeuedWaits(s, t, job, j);
    }
    RequeuedQueue(c, s, w, t, job);
  }

  lemma RequeueKeeps(c: Config, s: State, w: nat, job: Job)
    requires Inv(c, s) && w < |s.workers| && s.workers[w].pc == Dropped(job) && |job.tried| < MAX_PROXIES
    ensures job.id < |c.plan| && Inv(c, DoDecide(c, s, w, job))
  {
    RequeueLocal(c, s, w, job);
    assert WorkerOk(c, s, w);
    ChunkStepInv(c, s, DoDecide(c, s, w, job), w, job.id);
  }

  /** The actions that touch no chunk. */
  predicate IsQuiet(s: State, op: Op) {
    op.Peek? || op.TryOpen? || op.Ask? || op.InitHandle? || op.Drop? || op.Leave?
    || (op.Claim? && s.queue == []) || (op.Begin? && !op.canOpen)
  }

  lemma OpeningIsQuiet(c: Config, s: State, w: nat, op: Op)
    requires Shaped(c, s) && w < |s.workers| && WorkStep(c, s, w, op).Some?
    requires WorkerOk(c, s, w) && SlotHonest(c, s, w)
    requires op.Peek? || op.TryOpen? || op.Ask?
    requires s.queue == [] && s.inflight == 0 ==> AllSettled(s)
    ensures Quiet(c, s, WorkStep(c, s, w, op).value, w)
  {
    if op.Peek? {
      PeekQuiet(c, s, w);
    } else if op.TryOpen? {
      TryOpenQuiet(c, s, w);
    } else {
      AskQuiet(c, s, w, op.granted);
    }
  }

  lemma HandleIsQuiet(c: Config, s: State, w: nat, op: Op)
    requires Shaped(c, s) && w < |s.workers| && WorkStep(c, s, w, op).Some?
    requires WorkerOk(c, s, w) && SlotHonest(c, s, w)
    requires op.InitHandle? || op.Drop?
    ensures Quiet(c, s, WorkStep(c, s, w, op).value, w)
  {
    var pc := s.workers[w].pc;
    if op.Drop? {
      DropPipeQuiet(c, s, w, if pc.Counted? then Leaving else Dropped(pc.job));
    } else if pc.DirectInit? {
      DirectInitQuiet(c, s, w, op.created);
    } else {
      ProxyInitQuiet(c, s, w, op.created);
    }
  }

  lemma ReturningIsQuiet(c: Config, s: State, w: nat, op: Op)
    requires Shaped(c, s) && w < |s.workers| && WorkStep(c, s, w, op).Some?
    requires WorkerOk(c, s, w) && SlotHonest(c, s, w)
    requires op.Leave? || (op.Claim? && s.queue == []) || (op.Begin? && !op.canOpen)
    ensures Quiet(c, s, WorkStep(c, s, w, op).value, w)
  {
    if op.Leave? {
      LeaveQuiet(c, s, w);
    } else if op.Claim? {
      ReturnQuiet(c, s, w);
    } else {
      CannotOpenQuiet(c, s, w, s.workers[w].pc.job);
    }
  }

  lemma QuietActions(c: Config, s: State, w: nat, op: Op)
    requires Inv(c, s) && w < |s.workers| && WorkStep(c, s, w, op).Some? && IsQuiet(s, op)
    ensures Quiet(c, s, WorkStep(c, s, w, op).value, w)
  {
    assert WorkerOk(c, s, w);
    OwnerMeansBusy(c, s, w);
    if s.queue == [] && s.inflight == 0 { EmptyAndIdleMeansSettled(c, s); }
    if op.Peek? || op.TryOpen? || op.Ask? {
      OpeningIsQuiet(c, s, w, op);
    } else if op.InitHandle? || op.Drop? {
      HandleIsQuiet(c, s, w, op);
    } else {
      ReturningIsQuiet(c, s, w, op);
    }
  }

  /** Every action of a worker keeps the invariant. */
  lemma WorkKeepsInv(c: Config, s: State, w: nat, op: Op)
    requires Inv(c, s) && w < |s.workers| && WorkStep(c, s, w, op).Some?
    ensures Inv(c, WorkStep(c, s, w, op).value)
  {
    var pc := s.workers[w].pc;
    if op.Claim? && s.queue != [] {
      ClaimKeeps(c, s, w);
    } else if op.Begin? && op.canOpen {
      BeginKeeps(c, s, w, pc.job);
    } else if op.Receive? {
      ReceiveKeeps(c, s, w, pc.job, op.bytes);
    } else if op.End? {
      EndKeeps(c, s, w, pc.job, pc.have, op.code);
    } else if op.Tally? {
      TallyKeeps(c, s, w, pc.job);
    } else if op.Decide? {
      if |pc.job.tried| >= MAX_PROXIES { GiveUpKeeps(c, s, w, pc.job); } else { RequeueKeeps(c, s, w, pc.job); }
    } else {
      QuietActions(c, s, w, op);
      QuietStep(c, s, WorkStep(c, s, w, op).value, w);
    }
  }

  /** finished + failed is the number of settled chunks, so it reaches the number of chunks
      only when every chunk is settled. */
  lemma CountersSettle(c: Config, s: State)
    requires Inv(c, s)
    ensures s.finished + s.failed <= |c.plan|
    ensures s.finished + s.failed == |c.plan| <==> AllSettled(s)
  {
    CountDisjoint(IsDone, IsLost, s.place);
  }

  /** Every action keeps the invariant. */
  lemma StepKeepsInv(c: Config, s: State, a: Action)
    requires Inv(c, s) && Step(c, s, a).Some?
    ensures Inv(c, Step(c, s, a).value)
  {
    if a.Work? {
      WorkKeepsInv(c, s, a.w, a.op);
    } else {
      MainKeepsInv(c, s, a);
    }
  }

  lemma MainKeepsInv(c: Config, s: State, a: Action)
    requires Inv(c, s) && !a.Work? && Step(c, s, a).Some?
    ensures Inv(c, Step(c, s, a).value)
  {
    var t := Step(c, s, a).value;
    CountersSettle(c, s);
    assert t == s.(main := t.main);
    forall i | 0 <= i < |c.plan|
      ensures ChunkOk(c, t, i)
    {
      assert ChunkOk(c, s, i);
      if s.place[i].Queued? {
        var k :| 0 <= k < |s.queue| && s.queue[k].id == i;
        assert t.queue[k].id == i;
      }
    }
    forall w | 0 <= w < |t.workers|
      ensures WorkerOk(c, t, w)
    {
      assert WorkerOk(c, s, w);
    }
  }
}
