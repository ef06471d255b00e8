/** Whole runs of the download: every interleaving of every number of workers, with every
    outcome of every transfer. */
module DownloadRuns {
  import opened Wrappers
  import opened Counting
  import opened PartFiles
  import opened Download
  import opened DownloadInvariant
  import opened DownloadData

  /** The state a sequence of actions leads to; None if one of them is not enabled. */
  ghost function Run(c: Config, s: State, actions: seq<Action>): (r: Option<State>)
    requires Inv(c, s)
    ensures r.Some? ==> Inv(c, r.value)
    decreases |actions|
  {
    if actions == [] then Some(s)
    else
      var next := Step(c, s, actions[0]);
      if next.None? then None
      else StepKeepsInv(c, s, actions[0]); Run(c, next.value, actions[1..])
  }

  /** A run can be cut anywhere. */
  lemma {:induction false} RunJoin(c: Config, s: State, xs: seq<Action>, ys: seq<Action>)
    requires Inv(c, s)
    ensures var t := Run(c, s, xs); Run(c, s, xs + ys) == if t.None? then None else Run(c, t.value, ys)
    decreases |xs|
  {
    if xs == [] {
      assert xs + ys == ys;
    } else {
      assert (xs + ys)[0] == xs[0] && (xs + ys)[1..] == xs[1..] + ys;
      var next := Step(c, s, xs[0]);
      if next.Some? {
        StepKeepsInv(c, s, xs[0]);
        RunJoin(c, next.value, xs[1..], ys);
      }
    }
  }

  /** A run of the whole program with `workers` workers. */
  ghost function RunDownload(c: Config, workers: nat, actions: seq<Action>): (r: Option<State>)
    requires c.Valid()
    ensures r.Some? ==> Inv(c, r.value)
  {
    StartInv(c, workers);
    Run(c, Start(c, workers), actions)
  }

  ghost predicate Reachable(c: Config, s: State) {
    c.Valid() && exists workers: nat, actions :: RunDownload(c, workers, actions) == Some(s)
  }

  lemma ReachableInv(c: Config, s: State)
    requires Reachable(c, s)
    ensures Inv(c, s)
  {
    var workers: nat, actions :| RunDownload(c, workers, actions) == Some(s);
  }

  predicate HasJob(x: Worker) { HeldJob(x.pc).Some? }

  predicate Holds(s: State, w: nat, i: nat) {
    w < |s.workers| && HeldJob(s.workers[w].pc).Some? && HeldJob(s.workers[w].pc).value.id == i
  }

  /** Job conservation: a chunk is queued, held by a worker, done or given up -- one of these
      and once only -- and the three counters of the program count what they are meant to. */
  lemma ChunkIsInOnePlace(c: Config, s: State, i: nat)
    requires Reachable(c, s) && i < |c.plan|
    ensures Waits(s, i) <==> s.place[i].Queued?
    ensures (exists w: nat :: Holds(s, w, i)) <==> s.place[i].Held?
    ensures forall j, k :: 0 <= j < k < |s.queue| ==> s.queue[j].id != s.queue[k].id
    ensures forall v: nat, w: nat :: Holds(s, v, i) && Holds(s, w, i) ==> v == w
    ensures s.finished == Count(IsDone, s.place) && s.failed == Count(IsLost, s.place)
    ensures Count(HasJob, s.workers) <= s.inflight
  {
    ReachableInv(c, s);
    assert ChunkOk(c, s, i);
    if s.place[i].Held? { assert Holds(s, s.place[i].worker, i); }
    forall w: nat | Holds(s, w, i)
      ensures s.place[i] == Held(w)
    {
      assert WorkerOk(c, s, w);
    }
    HoldersAreInFlight(s.workers);
  }

  lemma {:induction false} HoldersAreInFlight(xs: seq<Worker>)
    ensures Count(HasJob, xs) <= Count(InFlight, xs)
  {
    if xs != [] { HoldersAreInFlight(xs[..|xs| - 1]); }
  }

  lemma JobPartOnly(c: Config, s: State, w: nat, op: Op, t: State, i: nat)
    requires Shaped(c, s) && w < |s.workers| && WorkStep(c, s, w, op) == Some(t) && i < |c.plan|
    requires !Holds(s, w, i) && WorkerOk(c, s, w) && !IsQuiet(s, op)
    ensures |t.parts| == |c.plan| && t.parts[i] == s.parts[i]
  {
  }

  /** An action of a worker touches the part of no chunk but the one it holds. */
  lemma OwnPartOnly(c: Config, s: State, w: nat, op: Op, t: State, i: nat)
    requires Reachable(c, s) && w < |s.workers| && WorkStep(c, s, w, op) == Some(t) && i < |c.plan|
    requires !Holds(s, w, i)
    ensures |t.parts| == |c.plan| && t.parts[i] == s.parts[i]
  {
    ReachableInv(c, s);
    assert WorkerOk(c, s, w);
    if IsQuiet(s, op) {
      QuietActions(c, s, w, op);
    } else {
      JobPartOnly(c, s, w, op, t, i);
    }
  }

  /** No two workers ever have a transfer into the same part file running. */
  lemma PartsHaveOneWriter(c: Config, s: State, v: nat, w: nat)
    requires Reachable(c, s) && v < |s.workers| && w < |s.workers| && v != w
    requires s.workers[v].pc.Fetching? && s.workers[w].pc.Fetching?
    ensures s.workers[v].pc.job.id != s.workers[w].pc.job.id
  {
    ReachableInv(c, s);
    assert WorkerOk(c, s, v) && WorkerOk(c, s, w);
  }

  /** A worker returns only when every chunk is settled, and the main thread leaves its loop
      only when finished + failed is exactly the number of chunks. */
  lemma ExitIsSafe(c: Config, s: State)
    requires Reachable(c, s)
    ensures forall w :: 0 <= w < |s.workers| && s.workers[w].pc.Exited? ==> AllSettled(s)
    ensures s.finished + s.failed <= |c.plan|
    ensures s.main.Joining? || s.main.Joined? || s.main.Ended? ==> s.finished + s.failed == |c.plan|
  {
    ReachableInv(c, s);
    CountersSettle(c, s);
    forall w | 0 <= w < |s.workers| && s.workers[w].pc.Exited?
      ensures AllSettled(s)
    {
      assert WorkerOk(c, s, w);
    }
  }

  /** The direct slot: unless --direct is given, at most one worker has it, and direct_busy is
      set just while one does. */
  lemma DirectSlotIsExclusive(c: Config, s: State)
    requires Reachable(c, s) && !c.direct
    ensures s.directBusy <==> exists w :: 0 <= w < |s.workers| && OwnsSlot(s.workers[w])
    ensures forall v, w ::
              (0 <= v < |s.workers| && OwnsSlot(s.workers[v]) && 0 <= w < |s.workers| && OwnsSlot(s.workers[w]))
              ==> v == w
  {
    ReachableInv(c, s);
    CountBounds(OwnsSlot, s.workers);
  }

  /** The leases of the client are exactly those its workers still have to give back, one by
      one; once the workers have returned there is none, and the slot is free. */
  lemma LeasesAreReturned(c: Config, s: State)
    requires Reachable(c, s)
    ensures forall url :: s.leases[url] == Count(Leases(url), s.workers)
    ensures (forall w :: 0 <= w < |s.workers| ==> s.workers[w].pc.Exited?) ==>
              s.leases == multiset{} && (c.direct || !s.directBusy)
  {
    ReachableInv(c, s);
    if forall w :: 0 <= w < |s.workers| ==> s.workers[w].pc.Exited? {
      forall w | 0 <= w < |s.workers|
        ensures LeaseUrl(s.workers[w]) == None && !OwnsSlot(s.workers[w])
      {
        assert WorkerOk(c, s, w);
      }
      CountBounds(OwnsSlot, s.workers);
      forall url
        ensures s.leases[url] == 0
      {
        CountBounds(Leases(url), s.workers);
        assert s.leases[url] == Count(Leases(url), s.workers);
      }
    }
  }

  // ---- an attempt from beginning to end ----

  /** The transfer hands over the pieces one after the other. */
  function Receives(w: nat, pieces: seq<Bytes>): seq<Action> {
    if pieces == [] then [] else Receives(w, pieces[..|pieces| - 1]) + [Work(w, Receive(pieces[|pieces| - 1]))]
  }

  /** The actions of the attempt. */
  function AttemptOf(part: Part, want: int, w: nat, canOpen: bool, pieces: seq<Bytes>, code: int): seq<Action> {
    if Size(part) >= want || !canOpen then [Work(w, Begin(canOpen))]
    else [Work(w, Begin(true))] + Receives(w, pieces) + [Work(w, End(code))]
  }

  lemma OneStep(c: Config, s: State, a: Action, t: State)
    requires Inv(c, s) && Step(c, s, a) == Some(t)
    ensures Inv(c, t) && Run(c, s, [a]) == Some(t)
  {
    StepKeepsInv(c, s, a);
    assert [a][1..] == [];
    assert Run(c, t, []) == Some(t);
  }

  /** The state with these bytes in part i. */
  function WithPart(s: State, i: nat, bytes: Bytes): State
    requires i < |s.parts|
  {
    s.(parts := s.parts[i := Some(bytes)])
  }

  lemma ReceiveOne(c: Config, s: State, w: nat, job: Job, have: nat, before: Bytes, piece: Bytes)
    requires Shaped(c, s) && w < |s.workers| && s.workers[w].pc == Fetching(job, have) && job.id < |c.plan|
    ensures Shaped(c, WithPart(s, job.id, before))
    ensures Step(c, WithPart(s, job.id, before), Work(w, Receive(piece))) == Some(WithPart(s, job.id, before + piece))
  {
    assert s.parts[job.id := Some(before)][job.id := Some(before + piece)] == s.parts[job.id := Some(before + piece)];
  }

  lemma {:induction false} ReceivesRun(c: Config, s: State, w: nat, job: Job, have: nat, pieces: seq<Bytes>)
    requires Inv(c, s) && w < |s.workers| && s.workers[w].pc == Fetching(job, have)
    requires job.id < |c.plan| && s.parts[job.id].Some?
    ensures var t := WithPart(s, job.id, s.parts[job.id].value + Flatten(pieces));
            Inv(c, t) && Run(c, s, Receives(w, pieces)) == Some(t)
  {
    var i, now := job.id, s.parts[job.id].value;
    if pieces == [] {
      assert now + [] == now;
      assert s.parts[i := s.parts[i]] == s.parts;
    } else {
      var front, last := pieces[..|pieces| - 1], pieces[|pieces| - 1];
      var mid, a := now + Flatten(front), Work(w, Receive(last));
      ReceivesRun(c, s, w, job, have, front);
      ReceiveOne(c, s, w, job, have, mid, last);
      OneStep(c, WithPart(s, i, mid), a, WithPart(s, i, mid + last));
      RunJoin(c, s, Receives(w, front), [a]);
      LastPiece(now, pieces);
    }
  }

  lemma LastPiece(now: Bytes, pieces: seq<Bytes>)
    requires pieces != []
    ensures var n := |pieces| - 1; now + Flatten(pieces[..n]) + pieces[n] == now + Flatten(pieces)
  {
    var front, last := pieces[..|pieces| - 1], pieces[|pieces| - 1];
    FlattenAppend(front, last);
    assert front + [last] == pieces;
    InOrder(now, Flatten(front), last);
  }

  lemma InOrder(a: Bytes, b: Bytes, c: Bytes)
    ensures (a + b) + c == a + (b + c)
  {
  }

  /** The actions of an attempt are together one call of download_chunk. */
  lemma AttemptIsDownloadChunk(c: Config, s: State, w: nat, job: Job, canOpen: bool, pieces: seq<Bytes>, code: int)
    requires Inv(c, s) && w < |s.workers| && s.workers[w].pc == Claimed(job)
    ensures job.id < |c.plan|
    ensures var (ok, part) := Attempted(s.parts[job.id], c.Want(job.id), canOpen, pieces, code);
            Run(c, s, AttemptOf(s.parts[job.id], c.Want(job.id), w, canOpen, pieces, code))
            == Some(Move(s, w, Judged(job, ok)).(parts := s.parts[job.id := part]))
  {
    assert WorkerOk(c, s, w);
    var i := job.id;
    var part, want := s.parts[i], c.Want(i);
    var a := Work(w, Begin(canOpen));
    var u := Step(c, s, a).value;
    OneStep(c, s, a, u);
    assert s.parts[i := part] == s.parts;
    if Size(part) < want && canOpen {
      ReceivesRun(c, u, w, job, Size(part), pieces);
      AttemptEnds(c, s, u, w, job, pieces, code);
    }
  }

  lemma EndOne(c: Config, s: State, w: nat, job: Job, have: nat, all: Bytes, code: int)
    requires Shaped(c, s) && w < |s.workers| && s.workers[w].pc == Fetching(job, have) && job.id < |c.plan| && have <= |all|
    ensures Shaped(c, WithPart(s, job.id, all))
    ensures var (ok, part) := Settle(all, have, c.Want(job.id), code);
            Step(c, WithPart(s, job.id, all), Work(w, End(code)))
            == Some(Move(s, w, Judged(job, ok)).(parts := s.parts[job.id := part]))
  {
    var part := Settle(all, have, c.Want(job.id), code).1;
    assert s.parts[job.id := Some(all)][job.id := part] == s.parts[job.id := part];
  }

  lemma AttemptEnds(c: Config, s: State, u: State, w: nat, job: Job, pieces: seq<Bytes>, code: int)
    requires Inv(c, s) && Inv(c, u) && w < |s.workers| && s.workers[w].pc == Claimed(job) && job.id < |c.plan|
    requires Size(s.parts[job.id]) < c.Want(job.id) && u == DoBegin(c, s, w, job, true)
    requires Run(c, s, [Work(w, Begin(true))]) == Some(u)
    requires var v := WithPart(u, job.id, Content(s.parts[job.id]) + Flatten(pieces));
             Inv(c, v) && Run(c, u, Receives(w, pieces)) == Some(v)
    ensures var (ok, part) := Settle(Content(s.parts[job.id]) + Flatten(pieces), Size(s.parts[job.id]), c.Want(job.id), code);
            Run(c, s, [Work(w, Begin(true))] + Receives(w, pieces) + [Work(w, End(code))])
            == Some(Move(s, w, Judged(job, ok)).(parts := s.parts[job.id := part]))
  {
    var i, first, last := job.id, [Work(w, Begin(true))], Work(w, End(code));
    var all := Content(s.parts[i]) + Flatten(pieces);
    var v := WithPart(u, i, all);
    EndOne(c, u, w, job, Size(s.parts[i]), all, code);
    var t := Step(c, v, last).value;
    OneStep(c, v, last, t);
    RunJoin(c, s, first, Receives(w, pieces));
    RunJoin(c, s, first + Receives(w, pieces), [last]);
    MovedTwice(s, u, w, i, t);
  }

  /** The attempt changes the worker's place and the part, and nothing else. */
  lemma MovedTwice(s: State, u: State, w: nat, i: nat, t: State)
    requires w < |s.workers| && i < |s.parts| && |u.parts| == |s.parts| && |t.parts| == |s.parts| && |u.workers| == |s.workers|
    requires u == Move(s, w, u.workers[w].pc).(parts := s.parts[i := u.parts[i]])
    requires |t.workers| == |s.workers| && t == Move(u, w, t.workers[w].pc).(parts := u.parts[i := t.parts[i]])
    ensures t == Move(s, w, t.workers[w].pc).(parts := s.parts[i := t.parts[i]])
  {
    assert t.workers == s.workers[w := s.workers[w].(pc := t.workers[w].pc)];
    assert t.parts == s.parts[i := t.parts[i]];
  }

  // ---- failed attempts ----

  predicate FewAttempts(job: Job) { job.attempts < 3 }

  /** The number of failed attempts is kept below three: after three it starts again. */
  predicate AttemptsOk(s: State) {
    && (forall k :: 0 <= k < |s.queue| ==> FewAttempts(s.queue[k]))
    && (forall w :: 0 <= w < |s.workers| && HasJob(s.workers[w]) ==> FewAttempts(HeldJob(s.workers[w].pc).value))
  }

  lemma QuietKeepsAttempts(c: Config, s: State, t: State, w: nat)
    requires Shaped(c, s) && w < |s.workers| && Quiet(c, s, t, w) && AttemptsOk(s)
    ensures AttemptsOk(t)
  {
    assert HasJob(s.workers[w]) ==> FewAttempts(HeldJob(s.workers[w].pc).value);
  }

  lemma JobKeepsAttempts(c: Config, s: State, w: nat, op: Op, t: State)
    requires Shaped(c, s) && w < |s.workers| && WorkStep(c, s, w, op) == Some(t) && AttemptsOk(s)
    requires op.Claim? || op.Tally?
    ensures AttemptsOk(t)
  {
  }

  lemma TransferKeepsAttempts(c: Config, s: State, w: nat, op: Op, t: State)
    requires Shaped(c, s) && w < |s.workers| && WorkStep(c, s, w, op) == Some(t) && AttemptsOk(s)
    requires op.Begin? || op.Receive? || op.End?
    ensures AttemptsOk(t)
  {
    assert HasJob(s.workers[w]) ==> FewAttempts(HeldJob(s.workers[w].pc).value);
  }

  /** A job whose attempt has failed is given up after 32 proxies, and goes to the end of the queue
      otherwise, with one attempt more, or none after the third. */
  lemma FailedJob(c: Config, s: State, w: nat)
    requires Shaped(c, s) && w < |s.workers| && s.workers[w].pc.Dropped? && AttemptsOk(s)
    ensures var j := s.workers[w].pc.job;
            var t := WorkStep(c, s, w, Decide);
            && t.Some? && AttemptsOk(t.value)
            && (|j.tried| >= 32 ==>
                  t.value.queue == s.queue && t.value.failed == s.failed + 1 && t.value.place == s.place[j.id := Lost])
            && (|j.tried| < 32 ==>
                  && t.value.queue == s.queue + [Job(j.id, (j.attempts + 1) % 3, j.tried)] && t.value.failed == s.failed
                  && t.value.place == s.place[j.id := Queued])
  {
    assert HasJob(s.workers[w]) && FewAttempts(HeldJob(s.workers[w].pc).value);
  }

  lemma StepKeepsAttempts(c: Config, s: State, w: nat, op: Op, t: State)
    requires Inv(c, s) && w < |s.workers| && WorkStep(c, s, w, op) == Some(t) && AttemptsOk(s)
    ensures AttemptsOk(t)
  {
    if op.Decide? {
      FailedJob(c, s, w);
    } else if op.Claim? || op.Tally? {
      JobKeepsAttempts(c, s, w, op, t);
    } else if op.Begin? || op.Receive? || op.End? {
      TransferKeepsAttempts(c, s, w, op, t);
    } else {
      QuietActions(c, s, w, op);
      QuietKeepsAttempts(c, s, t, w);
    }
  }

  lemma {:induction false} RunKeepsAttempts(c: Config, s: State, actions: seq<Action>)
    requires Inv(c, s) && Run(c, s, actions).Some? && AttemptsOk(s)
    ensures AttemptsOk(Run(c, s, actions).value)
    decreases |actions|
  {
    if actions != [] {
      var a, t := actions[0], Step(c, s, actions[0]).value;
      if a.Work? { StepKeepsAttempts(c, s, a.w, a.op, t); }
      StepKeepsInv(c, s, a);
      RunKeepsAttempts(c, t, actions[1..]);
    }
  }

  lemma AttemptsStayBelowThree(c: Config, s: State)
    requires Reachable(c, s)
    ensures AttemptsOk(s)
  {
    var workers: nat, actions :| RunDownload(c, workers, actions) == Some(s);
    StartInv(c, workers);
    RunKeepsAttempts(c, Start(c, workers), actions);
  }

  /** An operation that a worker at `pc` can do. */
  function NextOp(pc: Pc): Op {
    match pc
    case Top => Peek
    case Opening => TryOpen
    case DirectInit => InitHandle(true)
    case Asking => Ask(None)
    case ProxyInit(_) => InitHandle(true)
    case Ready => Claim
    case Claimed(_) => Begin(true)
    case Fetching(_, _) => End(0)
    case Judged(_, ok) => if ok then Tally else Drop
    case Counted => Drop
    case Dropped(_) => Decide
    case Leaving => Leave
    case Exited => Leave
  }

  lemma BusyWorkerMoves(c: Config, s: State, w: nat)
    requires Shaped(c, s) && w < |s.workers| && WorkerOk(c, s, w)
    requires InFlight(s.workers[w])
    ensures var next := WorkStep(c, s, w, NextOp(s.workers[w].pc));
            next.Some? && w < |next.value.workers| && next.value.workers[w].pc != s.workers[w].pc
  {
  }

  lemma IdleWorkerMoves(c: Config, s: State, w: nat)
    requires Shaped(c, s) && w < |s.workers| && WorkerOk(c, s, w)
    requires !s.workers[w].pc.Exited? && !InFlight(s.workers[w]) && s.queue != []
    ensures var next := WorkStep(c, s, w, NextOp(s.workers[w].pc));
            next.Some? && w < |next.value.workers| && next.value.workers[w].pc != s.workers[w].pc
  {
  }

  /** Until every chunk is settled some worker can move on: no state is stuck. */
  lemma NeverStuck(c: Config, s: State) returns (w: nat)
    requires Reachable(c, s) && s.workers != [] && !AllSettled(s)
    ensures w < |s.workers| && Shaped(c, s)
    ensures var next := WorkStep(c, s, w, NextOp(s.workers[w].pc));
            next.Some? && w < |next.value.workers| && next.value.workers[w].pc != s.workers[w].pc
  {
    ReachableInv(c, s);
    CountBounds(InFlight, s.workers);
    if s.inflight == 0 && s.queue == [] { EmptyAndIdleMeansSettled(c, s); }
    w := 0;
    if s.inflight > 0 {
      w :| 0 <= w < |s.workers| && InFlight(s.workers[w]);
    }
    assert WorkerOk(c, s, w);
    if s.inflight > 0 { BusyWorkerMoves(c, s, w); } else { IdleWorkerMoves(c, s, w); }
  }
}
