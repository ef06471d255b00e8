/** A download can always be brought to an end; to a good one, if nothing went wrong before. */
module DownloadFinish {
  import opened Wrappers
  import opened Counting
  import opened Planner
  import opened PartFiles
  import opened Download
  import opened DownloadInvariant
  import opened DownloadData
  import opened DownloadRuns
  import opened DownloadResults

  predicate IsOpen(p: Place) { !Settled(p) }

  /** How far a worker is from settling a chunk, if all goes well from now on. */
  function Distance(pc: Pc): nat {
    match pc
    case Judged(_, ok) => if ok then 2 else 13
    case Dropped(_) => 12
    case Counted => 12
    case Leaving => 11
    case Asking => 10
    case Top => 9
    case Opening => 8
    case DirectInit => 7
    case ProxyInit(_) => 7
    case Ready => 6
    case Claimed(_) => 5
    case Fetching(_, _) => 4
    case Exited => 0
  }

  /** How far a worker is from returning when there is nothing left to do. */
  function WayOut(pc: Pc): nat {
    match pc
    case Counted => 12
    case Leaving => 11
    case Opening => 10
    case DirectInit => 9
    case Asking => 9
    case ProxyInit(_) => 9
    case Ready => 9
    case Top => 1
    case _ => 0
  }

  function Total(f: Pc -> nat, xs: seq<Worker>): nat {
    if xs == [] then 0 else Total(f, xs[..|xs| - 1]) + f(xs[|xs| - 1].pc)
  }

  lemma {:induction false} TotalUpdate(f: Pc -> nat, xs: seq<Worker>, w: nat, x: Worker)
    requires w < |xs|
    ensures Total(f, xs[w := x]) + f(xs[w].pc) == Total(f, xs) + f(x.pc)
  {
    var n := |xs| - 1;
    if w < n {
      assert xs[w := x][..n] == xs[..n][w := x];
      TotalUpdate(f, xs[..n], w, x);
    } else {
      assert xs[w := x][..n] == xs[..n];
    }
  }

  /** 20 is more than any one worker can be away. */
  function Rank(s: State): nat { 20 * Count(IsOpen, s.place) + Total(Distance, s.workers) }

  /** A worker's step towards the end: the rank drops. */
  predicate Nears(s: State, t: State, w: nat) {
    && w < |s.workers| == |t.workers| && t.workers == s.workers[w := t.workers[w]] && t.main == s.main
    && 20 * Count(IsOpen, t.place) + Distance(t.workers[w].pc) < 20 * Count(IsOpen, s.place) + Distance(s.workers[w].pc)
  }

  lemma NearsLowers(s: State, t: State, w: nat)
    requires Nears(s, t, w)
    ensures Rank(t) < Rank(s)
  {
    TotalUpdate(Distance, s.workers, w, t.workers[w]);
  }

  // ---- runs in which all goes well ----

  /** Nothing has gone wrong: no chunk was given up, no attempt has failed, and every byte on disk is
      the right one. */
  predicate Hopeful(c: Config, s: State)
    requires c.Valid() && Shaped(c, s)
  {
    && s.failed == 0
    && (forall i :: 0 <= i < |c.plan| ==> Content(s.parts[i]) <= c.Range(i))
    && (forall w :: 0 <= w < |s.workers| ==> Trusty(s.workers[w].pc))
  }

  predicate Trusty(pc: Pc) { !pc.Dropped? && (pc.Judged? ==> pc.ok) }

  /** The action does not go wrong: parts can be opened, what is received continues the range, and a
      transfer ends, with the given status, when nothing is missing. */
  predicate Smooth(c: Config, s: State, a: Action, code: int)
    requires c.Valid() && Shaped(c, s)
  {
    a.Work? && a.w < |s.workers| ==>
      var job := HeldJob(s.workers[a.w].pc);
      match a.op
      case Begin(canOpen) => canOpen
      case Receive(bytes) => job.Some? ==> Content(s.parts[job.value.id]) + bytes <= c.Range(job.value.id)
      case End(x) => x == code && (job.Some? ==> Size(s.parts[job.value.id]) >= c.Want(job.value.id))
      case _ => true
  }

  /** Only worker w moved, to a place where nothing is wrong, and the parts are right. */
  predicate Tidy(c: Config, s: State, t: State, w: nat)
    requires c.Valid() && Shaped(c, s) && w < |s.workers|
  {
    && t.failed == s.failed && |t.parts| == |s.parts| && |t.workers| == |s.workers|
    && t.workers == s.workers[w := t.workers[w]] && Trusty(t.workers[w].pc)
    && forall i :: 0 <= i < |c.plan| ==> Content(t.parts[i]) <= c.Range(i)
  }

  /** Only worker w moved, to a place where nothing is wrong. */
  predicate Untouched(s: State, t: State, w: nat)
    requires w < |s.workers|
  {
    && t.failed == s.failed && t.parts == s.parts && |t.workers| == |s.workers|
    && t.workers == s.workers[w := t.workers[w]] && Trusty(t.workers[w].pc)
  }

  lemma PeekTouchesNothing(c: Config, s: State, w: nat)
    requires w < |s.workers| && Trusty(s.workers[w].pc)
    ensures Untouched(s, DoPeek(c, s, w), w)
  {
  }

  lemma TryOpenTouchesNothing(c: Config, s: State, w: nat)
    requires w < |s.workers|
    ensures Untouched(s, DoTryOpen(c, s, w), w)
  {
    assert Untouched(s, DropPipe(c, s, w, Opening), w);
  }

  lemma AskTouchesNothing(c: Config, s: State, w: nat, granted: Option<Url>)
    requires w < |s.workers|
    ensures Untouched(s, DoAsk(c, s, w, granted), w)
  {
  }

  lemma HandleTouchesNothing(c: Config, s: State, w: nat, op: Op)
    requires Shaped(c, s) && w < |s.workers| && WorkStep(c, s, w, op).Some? && Trusty(s.workers[w].pc)
    requires op.InitHandle? || op.Drop? || op.Leave?
    ensures Untouched(s, WorkStep(c, s, w, op).value, w)
  {
  }

  lemma TidyPipe(c: Config, s: State, w: nat, op: Op, t: State)
    requires Inv(c, s) && w < |s.workers| && WorkStep(c, s, w, op) == Some(t) && Hopeful(c, s)
    requires op.Peek? || op.TryOpen? || op.Ask? || op.InitHandle? || op.Drop? || op.Leave?
    ensures Tidy(c, s, t, w)
  {
    assert Trusty(s.workers[w].pc);
    if op.Peek? {
      PeekTouchesNothing(c, s, w);
    } else if op.TryOpen? {
      TryOpenTouchesNothing(c, s, w);
    } else if op.Ask? {
      AskTouchesNothing(c, s, w, op.granted);
    } else {
      HandleTouchesNothing(c, s, w, op);
    }
    TidyFrame(c, s, t, w);
  }

  lemma TidyFrame(c: Config, s: State, t: State, w: nat)
    requires c.Valid() && Shaped(c, s) && Hopeful(c, s) && w < |s.workers| && Untouched(s, t, w)
    ensures Tidy(c, s, t, w)
  {
  }

  lemma TidyJob(c: Config, s: State, w: nat, op: Op, t: State)
    requires Inv(c, s) && w < |s.workers| && WorkStep(c, s, w, op) == Some(t) && Hopeful(c, s)
    requires op.Claim? || op.Tally?
    ensures Tidy(c, s, t, w)
  {
  }

  lemma TidyPart(c: Config, s: State, w: nat, op: Op, t: State, code: int)
    requires Inv(c, s) && w < |s.workers| && WorkStep(c, s, w, op) == Some(t) && Hopeful(c, s)
    requires Smooth(c, s, Work(w, op), code) && (op.Begin? || op.Receive? || op.End?)
    ensures Tidy(c, s, t, w)
  {
    assert Trusty(s.workers[w].pc);
    var i := s.workers[w].pc.job.id;
    assert t.parts == s.parts[i := t.parts[i]];
    assert Content(t.parts[i]) <= c.Range(i);
  }

  lemma SmoothWork(c: Config, s: State, w: nat, op: Op, t: State, code: int)
    requires Inv(c, s) && w < |s.workers| && WorkStep(c, s, w, op) == Some(t) && Shaped(c, t)
    requires Hopeful(c, s) && Smooth(c, s, Work(w, op), code)
    ensures Hopeful(c, t)
  {
    assert Trusty(s.workers[w].pc);
    if op.Claim? || op.Tally? {
      TidyJob(c, s, w, op, t);
    } else if op.Begin? || op.Receive? || op.End? {
      TidyPart(c, s, w, op, t, code);
    } else if !op.Decide? {
      TidyPipe(c, s, w, op, t);
    }
  }

  lemma SmoothIsHonest(c: Config, s: State, a: Action, code: int)
    requires Inv(c, s) && Hopeful(c, s) && Smooth(c, s, a, code) && RangeServed(code)
    ensures Honest(c, s, a)
  {
    forall i | 0 <= i < |c.plan| && EndsTransfer(s, a, i)
      ensures Faithful(c.Range(i), |Saved(s, i)|, Delivered(s, i), a.op.code)
    {
      assert WorkerOk(c, s, a.w);
      var now, have := Content(s.parts[i]), |Saved(s, i)|;
      assert now <= c.Range(i);
      assert c.Range(i)[have..][..|now| - have] == now[have..];
    }
  }

  lemma SmoothStep(c: Config, s: State, a: Action, t: State, code: int)
    requires Inv(c, s) && Step(c, s, a) == Some(t) && Inv(c, t) && Hopeful(c, s) && Smooth(c, s, a, code)
    ensures Hopeful(c, t)
  {
    if a.Work? { SmoothWork(c, s, a.w, a.op, t, code); }
  }

  ghost predicate SmoothRun(c: Config, s: State, actions: seq<Action>, code: int)
    requires Inv(c, s)
    decreases |actions|
  {
    actions == [] ||
    var next := Step(c, s, actions[0]);
    next.Some? && Smooth(c, s, actions[0], code)
    && (StepKeepsInv(c, s, actions[0]); SmoothRun(c, next.value, actions[1..], code))
  }

  lemma {:induction false} SmoothRunIsHonest(c: Config, s: State, actions: seq<Action>, code: int)
    requires Inv(c, s) && Hopeful(c, s) && SmoothRun(c, s, actions, code)
    ensures Run(c, s, actions).Some? && Hopeful(c, Run(c, s, actions).value)
    ensures RangeServed(code) ==> HonestRun(c, s, actions)
    decreases |actions|
  {
    if actions != [] {
      var a := actions[0];
      var t := Step(c, s, a).value;
      StepKeepsInv(c, s, a);
      SmoothStep(c, s, a, t, code);
      SmoothRunIsHonest(c, t, actions[1..], code);
      if RangeServed(code) { SmoothIsHonest(c, s, a, code); }
    }
  }

  lemma {:induction false} SmoothJoin(c: Config, s: State, xs: seq<Action>, ys: seq<Action>, code: int)
    requires Inv(c, s) && SmoothRun(c, s, xs, code) && Run(c, s, xs).Some?
    requires SmoothRun(c, Run(c, s, xs).value, ys, code)
    ensures SmoothRun(c, s, xs + ys, code)
    decreases |xs|
  {
    if xs == [] {
      assert xs + ys == ys;
    } else {
      assert (xs + ys)[0] == xs[0] && (xs + ys)[1..] == xs[1..] + ys;
      StepKeepsInv(c, s, xs[0]);
      SmoothJoin(c, Step(c, s, xs[0]).value, xs[1..], ys, code);
    }
  }

  /** The actions lead from s to t, and if nothing went wrong before, nothing does on the way. */
  ghost predicate Leads(c: Config, s: State, actions: seq<Action>, t: State, code: int) {
    && Inv(c, s) && Run(c, s, actions) == Some(t)
    && (Hopeful(c, s) ==> SmoothRun(c, s, actions, code) && Hopeful(c, t))
  }

  lemma LeadsOn(c: Config, s: State, xs: seq<Action>, u: State, ys: seq<Action>, t: State, code: int)
    requires Leads(c, s, xs, u, code) && Leads(c, u, ys, t, code)
    ensures Leads(c, s, xs + ys, t, code)
  {
    RunJoin(c, s, xs, ys);
    if Hopeful(c, s) { SmoothJoin(c, s, xs, ys, code); }
  }

  lemma OneAction(c: Config, s: State, a: Action, t: State, code: int)
    requires Inv(c, s) && Step(c, s, a) == Some(t) && (Hopeful(c, s) ==> Smooth(c, s, a, code))
    ensures Inv(c, t) && Leads(c, s, [a], t, code)
  {
    StepKeepsInv(c, s, a);
    assert [a][1..] == [];
    assert Run(c, t, []) == Some(t) && SmoothRun(c, t, [], code);
    if Hopeful(c, s) { SmoothStep(c, s, a, t, code); }
  }

  // ---- a worker that has a job ----

  /** The bytes that chunk i lacks. */
  function Missing(c: Config, s: State, i: nat): Bytes
    requires c.Valid() && Shaped(c, s) && i < |c.plan| && Size(s.parts[i]) < c.Want(i)
  {
    c.Bounds(i);
    c.Range(i)[Size(s.parts[i])..]
  }

  lemma TallyNears(c: Config, s: State, w: nat, job: Job)
    requires Inv(c, s) && w < |s.workers| && s.workers[w].pc == Judged(job, true)
    ensures WorkStep(c, s, w, Tally).Some? && Nears(s, WorkStep(c, s, w, Tally).value, w)
  {
    assert WorkerOk(c, s, w);
    CountUpdate(IsOpen, s.place, job.id, Done);
  }

  lemma DecideNears(c: Config, s: State, w: nat, job: Job)
    requires Inv(c, s) && w < |s.workers| && s.workers[w].pc == Dropped(job)
    ensures WorkStep(c, s, w, Decide).Some? && Nears(s, WorkStep(c, s, w, Decide).value, w)
  {
    assert WorkerOk(c, s, w);
    CountUpdate(IsOpen, s.place, job.id, if |job.tried| >= MAX_PROXIES then Lost else Queued);
  }

  lemma BeginNears(c: Config, s: State, w: nat, job: Job)
    requires Inv(c, s) && w < |s.workers| && s.workers[w].pc == Claimed(job)
    ensures WorkStep(c, s, w, Begin(true)).Some? && Nears(s, WorkStep(c, s, w, Begin(true)).value, w)
  {
    assert WorkerOk(c, s, w);
  }

  lemma DropNears(c: Config, s: State, w: nat)
    requires Shaped(c, s) && w < |s.workers|
    requires var pc := s.workers[w].pc; pc.Counted? || (pc.Judged? && !pc.ok)
    ensures WorkStep(c, s, w, Drop).Some? && Nears(s, WorkStep(c, s, w, Drop).value, w)
  {
  }

  lemma LeaveNears(c: Config, s: State, w: nat)
    requires Shaped(c, s) && w < |s.workers| && s.workers[w].pc.Leaving?
    ensures WorkStep(c, s, w, Leave).Some? && Nears(s, WorkStep(c, s, w, Leave).value, w)
  {
  }

  lemma Completes(range: Bytes, now: Bytes, more: Bytes)
    requires now <= range && (more == range[|now|..] || more == [])
    ensures now + more <= range
  {
    assert now + range[|now|..] == range;
    assert now + [] == now;
  }

  /** A transfer that delivers everything that was missing. */
  lemma ReceiveAll(c: Config, s: State, w: nat, job: Job, have: nat) returns (a: Action, u: State)
    requires Inv(c, s) && w < |s.workers| && s.workers[w].pc == Fetching(job, have)
    ensures Step(c, s, a) == Some(u) && u.workers == s.workers && u.place == s.place && u.main == s.main
    ensures Hopeful(c, s) ==> forall code :: Smooth(c, s, a, code)
    ensures job.id < |u.parts| == |c.plan| && Size(u.parts[job.id]) >= c.Want(job.id)
  {
    assert WorkerOk(c, s, w);
    var more: Bytes := if Size(s.parts[job.id]) < c.Want(job.id) then Missing(c, s, job.id) else [];
    c.Bounds(job.id);
    if Hopeful(c, s) { Completes(c.Range(job.id), Content(s.parts[job.id]), more); }
    a := Work(w, Receive(more));
    u := Step(c, s, a).value;
  }

  lemma EndNears(c: Config, s: State, w: nat, job: Job, have: nat, code: int)
    requires Inv(c, s) && w < |s.workers| && s.workers[w].pc == Fetching(job, have)
    requires job.id < |c.plan| && Size(s.parts[job.id]) >= c.Want(job.id)
    ensures var next := WorkStep(c, s, w, End(code)); next.Some? && Nears(s, next.value, w)
  {
    assert WorkerOk(c, s, w);
  }

  lemma FetchNears(c: Config, s: State, w: nat, job: Job, have: nat, code: int) returns (actions: seq<Action>, t: State)
    requires Inv(c, s) && w < |s.workers| && s.workers[w].pc == Fetching(job, have)
    ensures Leads(c, s, actions, t, code) && Nears(s, t, w)
  {
    var first, u := ReceiveAll(c, s, w, job, have);
    OneAction(c, s, first, u, code);
    EndNears(c, u, w, job, have, code);
    var second := Work(w, End(code));
    t := Step(c, u, second).value;
    OneAction(c, u, second, t, code);
    LeadsOn(c, s, [first], u, [second], t, code);
    actions := [first] + [second];
  }

  lemma BusyNears(c: Config, s: State, w: nat, code: int) returns (actions: seq<Action>, t: State)
    requires Inv(c, s) && w < |s.workers| && InFlight(s.workers[w])
    ensures Leads(c, s, actions, t, code) && Nears(s, t, w)
  {
    var pc := s.workers[w].pc;
    if pc.Fetching? {
      actions, t := FetchNears(c, s, w, pc.job, pc.have, code);
    } else {
      var op := NextOp(pc);
      if pc.Judged? && pc.ok {
        TallyNears(c, s, w, pc.job);
      } else if pc.Dropped? {
        DecideNears(c, s, w, pc.job);
      } else if pc.Claimed? {
        BeginNears(c, s, w, pc.job);
      } else if pc.Leaving? {
        LeaveNears(c, s, w);
      } else {
        DropNears(c, s, w);
      }
      t := WorkStep(c, s, w, op).value;
      actions := [Work(w, op)];
      OneAction(c, s, Work(w, op), t, code);
    }
  }

  // ---- a worker without a job, when one waits ----

  predicate HasOpened(pc: Pc) { pc.Ready? || pc.DirectInit? || pc.ProxyInit? }

  lemma OpenedNears(c: Config, s: State, w: nat)
    requires Inv(c, s) && w < |s.workers| && HasOpened(s.workers[w].pc) && s.queue != []
    ensures var next := WorkStep(c, s, w, NextOp(s.workers[w].pc)); next.Some? && Nears(s, next.value, w)
  {
    if s.workers[w].pc.Ready? {
      var i := s.queue[0].id;
      CountUpdate(IsOpen, s.place, i, Held(w));
      assert s.place[i] == Queued;
    }
  }

  lemma SlotIsFree(c: Config, s: State)
    requires Inv(c, s) && !c.direct
    requires forall w :: 0 <= w < |s.workers| ==> !HasOpened(s.workers[w].pc) && !InFlight(s.workers[w])
    ensures !s.directBusy
  {
    forall w | 0 <= w < |s.workers|
      ensures !OwnsSlot(s.workers[w])
    {
      assert WorkerOk(c, s, w);
    }
    CountBounds(OwnsSlot, s.workers);
  }

  lemma UnopenedNears(c: Config, s: State, w: nat)
    requires Inv(c, s) && w < |s.workers| && s.queue != [] && (c.direct || !s.directBusy)
    requires s.workers[w].pc.Top? || s.workers[w].pc.Opening? || s.workers[w].pc.Asking?
    ensures var next := WorkStep(c, s, w, NextOp(s.workers[w].pc)); next.Some? && Nears(s, next.value, w)
  {
    assert WorkerOk(c, s, w);
  }

  lemma IdleNears(c: Config, s: State, code: int) returns (w: nat, actions: seq<Action>, t: State)
    requires Inv(c, s) && s.workers != [] && !AllSettled(s) && s.queue != []
    requires forall v :: 0 <= v < |s.workers| ==> !InFlight(s.workers[v])
    ensures Leads(c, s, actions, t, code) && Nears(s, t, w)
  {
    if v: nat :| v < |s.workers| && HasOpened(s.workers[v].pc) {
      w := v;
      OpenedNears(c, s, w);
    } else {
      w := 0;
      if !c.direct { SlotIsFree(c, s); }
      assert WorkerOk(c, s, w);
      UnopenedNears(c, s, w);
    }
    var op := NextOp(s.workers[w].pc);
    t := WorkStep(c, s, w, op).value;
    actions := [Work(w, op)];
    OneAction(c, s, Work(w, op), t, code);
  }

  /** Until every chunk is settled, some worker can come nearer to settling one. */
  lemma SomeoneNears(c: Config, s: State, code: int) returns (actions: seq<Action>, t: State)
    requires Inv(c, s) && s.workers != [] && !AllSettled(s)
    ensures Leads(c, s, actions, t, code) && |t.workers| == |s.workers| && t.main == s.main && Rank(t) < Rank(s)
  {
    var w: nat;
    if v: nat :| v < |s.workers| && InFlight(s.workers[v]) {
      w := v;
      actions, t := BusyNears(c, s, w, code);
    } else {
      CountBounds(InFlight, s.workers);
      if s.queue == [] { EmptyAndIdleMeansSettled(c, s); }
      w, actions, t := IdleNears(c, s, code);
    }
    NearsLowers(s, t, w);
  }

  lemma {:induction false} CanSettle(c: Config, s: State, code: int) returns (actions: seq<Action>, t: State)
    requires Inv(c, s) && s.workers != []
    ensures Leads(c, s, actions, t, code) && t.workers != [] && t.main == s.main && AllSettled(t)
    decreases Rank(s)
  {
    if AllSettled(s) {
      actions, t := [], s;
    } else {
      var first, u := SomeoneNears(c, s, code);
      var more;
      more, t := CanSettle(c, u, code);
      actions := first + more;
      LeadsOn(c, s, first, u, more, t, code);
    }
  }

  // ---- the workers return ----

  /** An operation that brings a worker with nothing to do nearer to its return. */
  function ExitOp(pc: Pc): Op {
    if pc.DirectInit? || pc.ProxyInit? then InitHandle(false) else NextOp(pc)
  }

  lemma WaitingIsUnsettled(c: Config, s: State)
    requires Inv(c, s) && s.queue != []
    ensures !AllSettled(s)
  {
    assert s.place[s.queue[0].id] == Queued;
  }

  lemma NothingQueued(c: Config, s: State)
    requires Inv(c, s) && AllSettled(s)
    ensures s.queue == []
    ensures forall w :: 0 <= w < |s.workers| ==> HeldJob(s.workers[w].pc).None?
  {
    if s.queue != [] { WaitingIsUnsettled(c, s); }
    forall w | 0 <= w < |s.workers|
      ensures HeldJob(s.workers[w].pc).None?
    {
      assert WorkerOk(c, s, w);
    }
  }

  predicate Leaves(s: State, t: State, w: nat) {
    && w < |s.workers| == |t.workers| && t.workers == s.workers[w := t.workers[w]]
    && t.place == s.place && t.main == s.main
    && WayOut(t.workers[w].pc) < WayOut(s.workers[w].pc)
  }

  lemma OpeningLeaves(c: Config, s: State, w: nat)
    requires Shaped(c, s) && w < |s.workers| && s.workers[w].pc.Opening?
    ensures var next := WorkStep(c, s, w, TryOpen); next.Some? && Leaves(s, next.value, w)
  {
  }

  lemma PipeLeaves(c: Config, s: State, w: nat)
    requires Shaped(c, s) && w < |s.workers| && s.queue == []
    requires s.workers[w].pc.Ready? || s.workers[w].pc.Counted?
    ensures var next := WorkStep(c, s, w, ExitOp(s.workers[w].pc)); next.Some? && Leaves(s, next.value, w)
  {
  }

  lemma PlainLeaves(c: Config, s: State, w: nat)
    requires Shaped(c, s) && w < |s.workers| && s.queue == []
    requires var pc := s.workers[w].pc; pc.Leaving? || pc.Asking? || pc.DirectInit? || pc.ProxyInit? || pc.Top?
    requires s.workers[w].pc.Top? ==> s.inflight == 0
    ensures var next := WorkStep(c, s, w, ExitOp(s.workers[w].pc)); next.Some? && Leaves(s, next.value, w)
  {
  }

  /** With the queue empty every operation of a worker leads out, as long as it looks again only
      after the others have left. */
  lemma WorkerLeaves(c: Config, s: State, w: nat)
    requires Inv(c, s) && w < |s.workers| && s.queue == [] && HeldJob(s.workers[w].pc).None?
    requires !s.workers[w].pc.Exited? && (s.workers[w].pc.Top? ==> s.inflight == 0)
    ensures var next := WorkStep(c, s, w, ExitOp(s.workers[w].pc)); next.Some? && Leaves(s, next.value, w)
  {
    var pc := s.workers[w].pc;
    if pc.Opening? {
      OpeningLeaves(c, s, w);
    } else if pc.Ready? || pc.Counted? {
      PipeLeaves(c, s, w);
    } else {
      PlainLeaves(c, s, w);
    }
  }

  /** Who is to move: one in flight, if there is any. */
  lemma WhoLeaves(c: Config, s: State) returns (w: nat)
    requires Inv(c, s) && exists v :: 0 <= v < |s.workers| && !s.workers[v].pc.Exited?
    ensures w < |s.workers| && !s.workers[w].pc.Exited? && (s.workers[w].pc.Top? ==> s.inflight == 0)
  {
    CountBounds(InFlight, s.workers);
    if v: nat :| v < |s.workers| && InFlight(s.workers[v]) {
      w := v;
    } else {
      w :| w < |s.workers| && !s.workers[w].pc.Exited?;
    }
  }

  predicate AllExited(s: State) { forall w :: 0 <= w < |s.workers| ==> s.workers[w].pc.Exited? }

  lemma {:induction false} CanExit(c: Config, s: State, code: int) returns (actions: seq<Action>, t: State)
    requires Inv(c, s) && AllSettled(s)
    ensures Leads(c, s, actions, t, code) && t.main == s.main && AllSettled(t) && AllExited(t)
    decreases Total(WayOut, s.workers)
  {
    if AllExited(s) {
      actions, t := [], s;
    } else {
      NothingQueued(c, s);
      var w := WhoLeaves(c, s);
      WorkerLeaves(c, s, w);
      var a := Work(w, ExitOp(s.workers[w].pc));
      var u := Step(c, s, a).value;
      OneAction(c, s, a, u, code);
      TotalUpdate(WayOut, s.workers, w, u.workers[w]);
      var more;
      more, t := CanExit(c, u, code);
      actions := [a] + more;
      LeadsOn(c, s, [a], u, more, t, code);
    }
  }

  // ---- the main thread ends ----

  /** How many actions of the main thread are left. */
  function MainLeft(c: Config, s: State): nat {
    match s.main
    case Seen(finished) => if finished + s.failed < |c.plan| then 6 else 4
    case Waiting => 5
    case Joining => 3
    case Joined => 2
    case Ended(_, _) => 0
  }

  function MainOp(c: Config, pc: MainPc): Action {
    match pc
    case Waiting => MainLoad
    case Seen(_) => MainTest
    case Joining => MainJoin
    case _ => MainAssemble(true, Max(0, c.size))
  }

  lemma MainMoves(c: Config, s: State)
    requires Inv(c, s) && AllSettled(s) && AllExited(s) && !s.main.Ended?
    ensures var next := Step(c, s, MainOp(c, s.main));
            next.Some? && AllSettled(next.value) && AllExited(next.value) && MainLeft(c, next.value) < MainLeft(c, s)
  {
    CountersSettle(c, s);
  }

  /** The main thread has ended with the file that was asked for. */
  predicate Delivers(c: Config, s: State)
    requires c.Valid()
  {
    c.size >= 0 && s.main == Ended(true, Some(c.remote[..c.size]))
  }

  lemma HopefulEnds(c: Config, s: State)
    requires Inv(c, s) && Hopeful(c, s) && s.main.Joined? && c.size >= 0
    ensures Delivers(c, DoAssemble(c, s, true, Max(0, c.size)))
  {
    assert Clean(c, s);
    AssemblyIsRight(c, s, true, Max(0, c.size));
  }

  lemma {:induction false} CanEnd(c: Config, s: State, code: int) returns (actions: seq<Action>, t: State)
    requires Inv(c, s) && AllSettled(s) && AllExited(s)
    ensures Leads(c, s, actions, t, code) && AllSettled(t) && t.main.Ended?
    ensures Hopeful(c, s) && c.size >= 0 && !s.main.Ended? ==> Delivers(c, t)
    decreases MainLeft(c, s)
  {
    if s.main.Ended? {
      actions, t := [], s;
    } else {
      MainMoves(c, s);
      var a := MainOp(c, s.main);
      var u := Step(c, s, a).value;
      OneAction(c, s, a, u, code);
      if s.main.Joined? && Hopeful(c, s) && c.size >= 0 { HopefulEnds(c, s); }
      if u.main.Ended? {
        actions, t := [a], u;
      } else {
        var more;
        more, t := CanEnd(c, u, code);
        actions := [a] + more;
        LeadsOn(c, s, [a], u, more, t, code);
      }
    }
  }

  lemma CanFinishWith(c: Config, s: State, code: int) returns (actions: seq<Action>, t: State)
    requires Inv(c, s) && s.workers != []
    ensures Leads(c, s, actions, t, code) && AllSettled(t) && t.main.Ended?
    ensures Hopeful(c, s) && c.size >= 0 && !s.main.Ended? ==> Delivers(c, t)
  {
    var first, u := CanSettle(c, s, code);
    var second, v := CanExit(c, u, code);
    LeadsOn(c, s, first, u, second, v, code);
    var third;
    third, t := CanEnd(c, v, code);
    LeadsOn(c, s, first + second, v, third, t, code);
    actions := first + second + third;
  }

  /** From every state that a download with a worker can get into, some continuation settles every
      chunk, brings every worker back and ends the main thread. */
  lemma CanFinish(c: Config, s: State) returns (actions: seq<Action>, t: State)
    requires Reachable(c, s) && s.workers != []
    ensures Inv(c, s) && Run(c, s, actions) == Some(t) && AllSettled(t) && t.main.Ended?
  {
    ReachableInv(c, s);
    actions, t := CanFinishWith(c, s, HTTP_PARTIAL);
  }

  /** And as long as nothing has gone wrong, some honest continuation ends in success, with the file
      that was asked for. */
  lemma CanSucceed(c: Config, s: State) returns (actions: seq<Action>, t: State)
    requires Reachable(c, s) && s.workers != [] && c.size >= 0 && !s.main.Ended?
    requires Shaped(c, s) && Hopeful(c, s)
    ensures Inv(c, s) && HonestRun(c, s, actions) && Run(c, s, actions) == Some(t) && Delivers(c, t)
  {
    ReachableInv(c, s);
    actions, t := CanFinishWith(c, s, HTTP_PARTIAL);
    SmoothRunIsHonest(c, s, actions, HTTP_PARTIAL);
  }

  lemma StartIsHopeful(c: Config, workers: nat)
    requires c.Valid()
    ensures Inv(c, Start(c, workers)) && Hopeful(c, Start(c, workers))
  {
    StartInv(c, workers);
  }

  /** Every download with a worker has an honest run that succeeds. */
  lemma SomeHonestRunSucceeds(c: Config, workers: nat) returns (actions: seq<Action>)
    requires c.Valid() && c.size >= 0 && workers > 0
    ensures HonestDownload(c, workers, actions)
    ensures var r := RunDownload(c, workers, actions); r.Some? && Delivers(c, r.value)
  {
    StartIsHopeful(c, workers);
    var t;
    actions, t := CanFinishWith(c, Start(c, workers), HTTP_PARTIAL);
    SmoothRunIsHonest(c, Start(c, workers), actions, HTTP_PARTIAL);
  }

  // ---- success with the wrong bytes ----

  lemma StepIgnoresRemote(c: Config, d: Config, s: State, a: Action)
    requires Shaped(c, s) && Shaped(d, s) && d == c.(remote := d.remote)
    ensures Step(c, s, a) == Step(d, s, a)
  {
  }

  /** The program never looks at what the bytes are. */
  lemma {:induction false} RunIgnoresRemote(c: Config, d: Config, s: State, actions: seq<Action>)
    requires Inv(c, s) && Inv(d, s) && d == c.(remote := d.remote)
    ensures Run(c, s, actions) == Run(d, s, actions)
    decreases |actions|
  {
    if actions != [] {
      StepIgnoresRemote(c, d, s, actions[0]);
      var next := Step(c, s, actions[0]);
      if next.Some? {
        StepKeepsInv(c, s, actions[0]);
        StepKeepsInv(d, s, actions[0]);
        RunIgnoresRemote(c, d, next.value, actions[1..]);
      }
    }
  }

  /** Whatever bytes a server sends, and under whatever status code, there is a run that reports
      success and has written just those. */
  lemma AnyBytesCanSucceed(c: Config, workers: nat, other: Bytes, code: int) returns (actions: seq<Action>)
    requires c.Valid() && c.size == |other| && workers > 0
    ensures var r := RunDownload(c, workers, actions); r.Some? && r.value.main == Ended(true, Some(other))
  {
    var d := c.(remote := other);
    StartIsHopeful(d, workers);
    StartInv(c, workers);
    var t;
    actions, t := CanFinishWith(d, Start(d, workers), code);
    assert Start(c, workers) == Start(d, workers);
    RunIgnoresRemote(c, d, Start(c, workers), actions);
    assert other[..c.size] == other;
  }
}
