/** What the steps of a download do to the bytes on disk. */
module DownloadData {
  import opened Wrappers
  import opened Planner
  import opened PartFiles
  import opened Download
  import opened DownloadInvariant

  /** The worker that holds chunk i has a transfer running. */
  predicate Transferring(s: State, i: nat)
    requires i < |s.place|
  {
    s.place[i].Held? && s.place[i].worker < |s.workers| && s.workers[s.place[i].worker].pc.Fetching?
  }

  /** The bytes of chunk i that count: what is on disk, without what a running transfer has
      added so far. */
  function Saved(s: State, i: nat): Bytes
    requires i < |s.place| == |s.parts|
  {
    var now := Content(s.parts[i]);
    if Transferring(s, i) then now[..Min(s.workers[s.place[i].worker].pc.have, |now|)] else now
  }

  /** Action a ends the transfer of chunk i. */
  predicate EndsTransfer(s: State, a: Action, i: nat) {
    && a.Work? && a.op.End? && a.w < |s.workers|
    && s.workers[a.w].pc.Fetching? && s.workers[a.w].pc.job.id == i
  }

  /** What the running transfer of chunk i has delivered. */
  function Delivered(s: State, i: nat): Bytes
    requires i < |s.place| == |s.parts|
  {
    Content(s.parts[i])[|Saved(s, i)|..]
  }

  /** A worker's step leaves the bytes of chunk i alone if it neither writes the part nor
      starts or ends a transfer of it. */
  lemma SavedFrame(s: State, t: State, w: nat, i: nat)
    requires i < |s.place| == |s.parts| == |t.parts| == |t.place| && w < |s.workers|
    requires |t.workers| == |s.workers| && t.workers == s.workers[w := t.workers[w]]
    requires t.place[i] == s.place[i] || (!Transferring(s, i) && !Transferring(t, i))
    requires Content(t.parts[i]) == Content(s.parts[i])
    requires s.place[i] == Held(w) ==> !s.workers[w].pc.Fetching?
    requires t.place[i] == Held(w) ==> !t.workers[w].pc.Fetching?
    ensures Saved(t, i) == Saved(s, i)
  {
  }

  lemma SavedBegin(c: Config, s: State, w: nat, job: Job)
    requires Shaped(c, s) && w < |s.workers| && s.workers[w].pc == Claimed(job) && WorkerOk(c, s, w)
    ensures JobInPlan(c, Claimed(job)) && Saved(DoBegin(c, s, w, job, true), job.id) == Saved(s, job.id)
  {
  }

  lemma SavedReceive(c: Config, s: State, w: nat, job: Job, bytes: Bytes)
    requires Shaped(c, s) && w < |s.workers| && s.workers[w].pc.Fetching? && s.workers[w].pc.job == job
    requires WorkerOk(c, s, w)
    ensures JobInPlan(c, Claimed(job)) && Saved(DoReceive(c, s, w, job, bytes), job.id) == Saved(s, job.id)
  {
  }

  lemma SavedEnd(c: Config, s: State, w: nat, job: Job, have: nat, code: int)
    requires Shaped(c, s) && w < |s.workers| && s.workers[w].pc == Fetching(job, have) && WorkerOk(c, s, w)
    ensures JobInPlan(c, Claimed(job)) && have <= Size(s.parts[job.id])
    ensures |Saved(s, job.id)| == have
    ensures Saved(s, job.id) + Delivered(s, job.id) == Content(s.parts[job.id])
    ensures Saved(DoEnd(c, s, w, job, have, code), job.id)
            == Content(Settle(Content(s.parts[job.id]), have, c.Want(job.id), code).1)
  {
  }

  lemma SavedOwn(c: Config, s: State, w: nat, op: Op, t: State, i: nat)
    requires Inv(c, s) && w < |s.workers| && WorkStep(c, s, w, op) == Some(t) && Inv(c, t) && i < |c.plan|
    requires (op.Begin? && op.canOpen) || op.Receive? || op.End?
    requires s.workers[w].pc.Claimed? || s.workers[w].pc.Fetching?
    requires s.workers[w].pc.job.id == i
    ensures if EndsTransfer(s, Work(w, op), i)
            then Saved(t, i) == Content(Settle(Saved(s, i) + Delivered(s, i), |Saved(s, i)|, c.Want(i), op.code).1)
            else Saved(t, i) == Saved(s, i)
  {
    var pc := s.workers[w].pc;
    assert WorkerOk(c, s, w);
    if op.Begin? {
      SavedBegin(c, s, w, pc.job);
    } else if op.Receive? {
      SavedReceive(c, s, w, pc.job, op.bytes);
    } else {
      SavedEnd(c, s, w, pc.job, pc.have, op.code);
    }
  }

  lemma SavedOther(c: Config, s: State, w: nat, op: Op, t: State, i: nat)
    requires Inv(c, s) && w < |s.workers| && WorkStep(c, s, w, op) == Some(t) && Inv(c, t) && i < |c.plan|
    requires (op.Begin? && op.canOpen) || op.Receive? || op.End?
    requires HeldJob(s.workers[w].pc).Some? && HeldJob(s.workers[w].pc).value.id != i
    ensures Saved(t, i) == Saved(s, i)
  {
    assert WorkerOk(c, s, w) && ChunkOk(c, s, i) && ChunkOk(c, t, i);
    SavedFrame(s, t, w, i);
  }

  lemma SavedClaim(c: Config, s: State, w: nat, i: nat)
    requires Inv(c, s) && w < |s.workers| && s.workers[w].pc.Ready? && s.queue != [] && i < |c.plan|
    ensures Saved(DoClaim(c, s, w), i) == Saved(s, i)
  {
    SavedFrame(s, DoClaim(c, s, w), w, i);
  }

  lemma SavedDecide(c: Config, s: State, w: nat, job: Job, i: nat)
    requires Inv(c, s) && w < |s.workers| && s.workers[w].pc == Dropped(job) && i < |c.plan|
    ensures job.id < |c.plan| && Saved(DoDecide(c, s, w, job), i) == Saved(s, i)
  {
    assert WorkerOk(c, s, w);
    SavedFrame(s, DoDecide(c, s, w, job), w, i);
  }

  lemma SavedTally(c: Config, s: State, w: nat, job: Job, i: nat)
    requires Inv(c, s) && w < |s.workers| && s.workers[w].pc == Judged(job, true) && i < |c.plan|
    ensures job.id < |c.plan| && Saved(DoTally(c, s, w, job), i) == Saved(s, i)
  {
    assert WorkerOk(c, s, w);
    SavedFrame(s, DoTally(c, s, w, job), w, i);
  }

  lemma SavedMove(c: Config, s: State, w: nat, op: Op, t: State, i: nat)
    requires Inv(c, s) && w < |s.workers| && WorkStep(c, s, w, op) == Some(t) && i < |c.plan|
    requires (op.Claim? && s.queue != []) || op.Tally? || op.Decide?
    ensures Saved(t, i) == Saved(s, i)
  {
    if op.Claim? {
      SavedClaim(c, s, w, i);
    } else if op.Tally? {
      SavedTally(c, s, w, s.workers[w].pc.job, i);
    } else {
      SavedDecide(c, s, w, s.workers[w].pc.job, i);
    }
  }

  lemma SavedQuiet(c: Config, s: State, w: nat, op: Op, t: State, i: nat)
    requires Inv(c, s) && w < |s.workers| && WorkStep(c, s, w, op) == Some(t) && i < |c.plan| && IsQuiet(s, op)
    ensures |t.place| == |t.parts| == |c.plan| && Saved(t, i) == Saved(s, i)
  {
    QuietActions(c, s, w, op);
    SavedFrame(s, t, w, i);
  }

  lemma SavedWork(c: Config, s: State, w: nat, op: Op, t: State, i: nat)
    requires Inv(c, s) && w < |s.workers| && WorkStep(c, s, w, op) == Some(t) && Inv(c, t) && i < |c.plan|
    requires (op.Begin? && op.canOpen) || op.Receive? || op.End?
    ensures if EndsTransfer(s, Work(w, op), i)
            then Saved(t, i) == Content(Settle(Saved(s, i) + Delivered(s, i), |Saved(s, i)|, c.Want(i), op.code).1)
            else Saved(t, i) == Saved(s, i)
  {
    if s.workers[w].pc.job.id == i {
      SavedOwn(c, s, w, op, t, i);
    } else {
      SavedOther(c, s, w, op, t, i);
    }
  }

  /** The bytes of a chunk change only when a transfer of it ends, and then as Settle says. */
  lemma SavedStep(c: Config, s: State, a: Action, t: State, i: nat)
    requires Inv(c, s) && Step(c, s, a) == Some(t) && Inv(c, t) && i < |c.plan|
    ensures if EndsTransfer(s, a, i)
            then Saved(t, i) == Content(Settle(Saved(s, i) + Delivered(s, i), |Saved(s, i)|, c.Want(i), a.op.code).1)
            else Saved(t, i) == Saved(s, i)
  {
    if a.Work? {
      if IsQuiet(s, a.op) {
        SavedQuiet(c, s, a.w, a.op, t, i);
      } else if a.op.Claim? || a.op.Tally? || a.op.Decide? {
        SavedMove(c, s, a.w, a.op, t, i);
      } else {
        SavedWork(c, s, a.w, a.op, t, i);
      }
    }
  }
}
