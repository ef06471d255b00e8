/** When a download uses proxies at all, and that it can use them up (src/proxchunk.cpp:667-830). */
module Proxied {
  import opened Wrappers
  import opened Counting
  import opened PartFiles
  import opened Download
  import opened DownloadInvariant
  import opened DownloadRuns
  import DownloadResults
  import Callers

  // ---- downloads that never use a proxy ----

  /** No daemon to ask, no wish to ask it, or nobody else to take the direct slot. */
  predicate Alone(c: Config, workers: nat) { !c.hasClient || c.direct || workers < 2 }

  predicate IsDirect(x: Worker) { !x.pc.Asking? && !x.pc.ProxyInit? && x.pipe.None? }

  /** Nothing has been leased, asked for or tried through a proxy. */
  predicate Unproxied(s: State) {
    && s.leases == multiset{}
    && (forall w :: 0 <= w < |s.workers| ==> IsDirect(s.workers[w]))
    && (forall i :: 0 <= i < |s.proxied| ==> s.proxied[i] == 0)
  }

  /** A worker that has no pipe finds the slot free, if no other worker can have it. */
  lemma SlotIsMine(c: Config, s: State, w: nat)
    requires Inv(c, s) && w < |s.workers| < 2 && s.workers[w].pc.Opening? && !c.direct
    ensures !s.directBusy
  {
    assert WorkerOk(c, s, w);
    CountBounds(OwnsSlot, s.workers);
  }

  lemma TryOpenUnproxied(c: Config, s: State, w: nat)
    requires Inv(c, s) && w < |s.workers| && s.workers[w].pc.Opening? && Alone(c, |s.workers|) && Unproxied(s)
    ensures Unproxied(DoTryOpen(c, s, w))
  {
    if !c.direct && |s.workers| < 2 { SlotIsMine(c, s, w); }
  }

  lemma PipeUnproxied(c: Config, s: State, w: nat, op: Op, t: State)
    requires Inv(c, s) && w < |s.workers| && WorkStep(c, s, w, op) == Some(t) && Unproxied(s)
    requires op.Peek? || op.Ask? || op.InitHandle? || op.Drop? || op.Leave?
    ensures Unproxied(t) && |t.workers| == |s.workers|
  {
    assert IsDirect(s.workers[w]);
  }

  lemma JobUnproxied(c: Config, s: State, w: nat, op: Op, t: State)
    requires Inv(c, s) && w < |s.workers| && WorkStep(c, s, w, op) == Some(t) && Unproxied(s)
    requires op.Claim? || op.Tally? || op.Decide?
    ensures Unproxied(t) && |t.workers| == |s.workers|
  {
    assert IsDirect(s.workers[w]);
  }

  lemma TransferUnproxied(c: Config, s: State, w: nat, op: Op, t: State)
    requires Inv(c, s) && w < |s.workers| && WorkStep(c, s, w, op) == Some(t) && Unproxied(s)
    requires op.Begin? || op.Receive? || op.End?
    ensures Unproxied(t) && |t.workers| == |s.workers|
  {
    assert IsDirect(s.workers[w]);
  }

  lemma StepUnproxied(c: Config, s: State, a: Action, t: State)
    requires Inv(c, s) && Step(c, s, a) == Some(t) && Alone(c, |s.workers|) && Unproxied(s)
    ensures Unproxied(t) && |t.workers| == |s.workers|
  {
    if a.Work? {
      if a.op.TryOpen? {
        TryOpenUnproxied(c, s, a.w);
      } else if a.op.Peek? || a.op.Ask? || a.op.InitHandle? || a.op.Drop? || a.op.Leave? {
        PipeUnproxied(c, s, a.w, a.op, t);
      } else if a.op.Begin? || a.op.Receive? || a.op.End? {
        TransferUnproxied(c, s, a.w, a.op, t);
      } else {
        JobUnproxied(c, s, a.w, a.op, t);
      }
    }
  }

  lemma {:induction false} RunUnproxied(c: Config, s: State, actions: seq<Action>)
    requires Inv(c, s) && Run(c, s, actions).Some? && Alone(c, |s.workers|) && Unproxied(s)
    ensures Unproxied(Run(c, s, actions).value)
    decreases |actions|
  {
    if actions != [] {
      StepKeepsInv(c, s, actions[0]);
      StepUnproxied(c, s, actions[0], Step(c, s, actions[0]).value);
      RunUnproxied(c, Step(c, s, actions[0]).value, actions[1..]);
    }
  }

  /** Without a daemon client, with --direct, or with one worker, no proxy is ever asked for, leased,
      tried or given back, and no chunk is given up. */
  lemma NoProxyIsUsed(c: Config, workers: nat, actions: seq<Action>)
    requires c.Valid() && Alone(c, workers) && RunDownload(c, workers, actions).Some?
    ensures var s := RunDownload(c, workers, actions).value;
            && s.leases == multiset{} && s.failed == 0
            && (forall w :: 0 <= w < |s.workers| ==> !s.workers[w].pc.Asking? && !s.workers[w].pc.ProxyInit?)
            && (forall i :: 0 <= i < |s.proxied| ==> s.proxied[i] == 0)
            && (forall a :: Callers.CallOf(s, a) == Callers.NoCall)
  {
    StartInv(c, workers);
    RunUnproxied(c, Start(c, workers), actions);
    var s := RunDownload(c, workers, actions).value;
    forall i | 0 <= i < |s.place|
      ensures !s.place[i].Lost?
    {
      assert ChunkOk(c, s, i);
    }
    CountBounds(IsLost, s.place);
    forall a
      ensures Callers.CallOf(s, a) == Callers.NoCall
    {
      if a.Work? && a.w < |s.workers| { assert IsDirect(s.workers[a.w]); }
    }
  }

  // ---- downloads that use proxies: worker 0 has the direct slot, and worker 1 fails ----

  /** The round of worker 1: it leases a proxy, takes the first job, and gets an error. */
  function RoundOp(url: Url, n: nat): Op {
    if n == 0 then Peek
    else if n == 1 then TryOpen
    else if n == 2 then Ask(Some(url))
    else if n == 3 then InitHandle(true)
    else if n == 4 then Claim
    else if n == 5 then Begin(true)
    else if n == 6 then End(503)
    else if n == 7 then Drop
    else if n == 8 then Decide
    else Leave
  }

  /** Between two rounds: the direct slot is taken, worker 1 has nothing, no part has a byte, and no
      chunk is with a worker. */
  ghost predicate Poised(c: Config, s: State) {
    && Inv(c, s) && !c.direct && c.hasClient && s.directBusy
    && |s.workers| > 1 && s.workers[1] == Worker(Top, None, false)
    && (forall i :: 0 <= i < |c.plan| ==> s.parts[i].None? && (s.place[i].Queued? || s.place[i].Lost?))
  }

  /** The first job, with one more proxy tried. */
  function Tried(s: State, url: Url): Job
    requires s.queue != []
  {
    s.queue[0].(tried := s.queue[0].tried + [url])
  }

  function Back(j: Job): Job { j.(attempts := if j.attempts + 1 >= CHUNK_TRIES then 0 else j.attempts + 1) }

  /** What a round leaves behind. */
  function AfterRound(s: State, url: Url): State
    requires s.queue != [] && s.queue[0].id < |s.place| == |s.proxied|
  {
    var j := Tried(s, url);
    var u := s.(queue := s.queue[1..], proxied := s.proxied[j.id := s.proxied[j.id] + 1]);
    if |j.tried| >= MAX_PROXIES then u.(failed := s.failed + 1, place := s.place[j.id := Lost])
    else u.(queue := s.queue[1..] + [Back(j)])
  }

  function With(s: State, x: Worker): State
    requires |s.workers| > 1
  {
    s.(workers := s.workers[1 := x])
  }

  /** With a lease of the proxy. */
  function Leased(s: State, url: Url): State { s.(leases := s.leases + multiset{url}) }

  /** And with the first job taken through it. */
  function Taken(s: State, url: Url): State
    requires s.queue != [] && s.queue[0].id < |s.place| == |s.proxied|
  {
    var j := Tried(s, url);
    s.(queue := s.queue[1..], inflight := s.inflight + 1, place := s.place[j.id := Held(1)],
       proxied := s.proxied[j.id := s.proxied[j.id] + 1])
  }

  /** The transfer has begun. */
  function Asked(s: State, url: Url): State
    requires |s.workers| > 1 && s.queue != [] && s.queue[0].id < |s.place| == |s.proxied| == |s.parts|
  {
    var j := Tried(s, url);
    Leased(Taken(With(s, Worker(Fetching(j, 0), Some(url), false)), url), url).(parts := s.parts[j.id := Some([])])
  }

  /** The job has been put back or given up. */
  function Decided(s: State, url: Url): State
    requires |s.workers| > 1 && s.queue != [] && s.queue[0].id < |s.place| == |s.proxied|
  {
    AfterRound(With(s, Worker(Leaving, None, false)), url).(inflight := s.inflight + 1)
  }

  /** The attempt has failed; and the pipe was dropped. */
  function Failing(s: State, url: Url): State
    requires |s.workers| > 1 && s.queue != [] && s.queue[0].id < |s.place| == |s.proxied|
  {
    Leased(Taken(With(s, Worker(Judged(Tried(s, url), false), Some(url), false)), url), url)
  }

  function Failed(s: State, url: Url): State
    requires |s.workers| > 1 && s.queue != [] && s.queue[0].id < |s.place| == |s.proxied|
  {
    Taken(With(s, Worker(Dropped(Tried(s, url)), None, false)), url)
  }

  function Stage(s: State, url: Url, n: nat): State
    requires |s.workers| > 1 && s.queue != [] && s.queue[0].id < |s.place| == |s.proxied| == |s.parts|
  {
    var j := Tried(s, url);
    if n == 0 then s
    else if n == 1 then With(s, Worker(Opening, None, false))
    else if n == 2 then With(s, Worker(Asking, None, false))
    else if n == 3 then Leased(With(s, Worker(ProxyInit(url), None, false)), url)
    else if n == 4 then Leased(With(s, Worker(Ready, Some(url), false)), url)
    else if n == 5 then Leased(Taken(With(s, Worker(Claimed(j), Some(url), false)), url), url)
    else if n == 6 then Asked(s, url)
    else if n == 7 then Failing(s, url)
    else if n == 8 then Failed(s, url)
    else if n == 9 then Decided(s, url)
    else AfterRound(s, url)
  }

  lemma WorkerTwice(s: State, x: Worker, y: Worker)
    requires |s.workers| > 1
    ensures s.workers[1 := x][1 := y] == s.workers[1 := y]
    ensures s.workers[1 := s.workers[1]] == s.workers
  {
  }

  lemma OpeningRound(c: Config, s: State, url: Url, n: nat)
    requires Poised(c, s) && s.queue != [] && n < 4 && Shaped(c, Stage(s, url, n))
    ensures WorkStep(c, Stage(s, url, n), 1, RoundOp(url, n)) == Some(Stage(s, url, n + 1))
  {
    var u := Stage(s, url, n);
    WorkerTwice(s, u.workers[1], Stage(s, url, n + 1).workers[1]);
    if n == 1 {
      WorkerTwice(s, u.workers[1], u.workers[1]);
      assert DropPipe(c, u, 1, Opening) == u;
    }
  }

  lemma ClaimRound(c: Config, s: State, url: Url)
    requires Poised(c, s) && s.queue != [] && Shaped(c, Stage(s, url, 4))
    ensures WorkStep(c, Stage(s, url, 4), 1, RoundOp(url, 4)) == Some(Stage(s, url, 5))
  {
    WorkerTwice(s, Stage(s, url, 4).workers[1], Stage(s, url, 5).workers[1]);
  }

  lemma BeginRound(c: Config, s: State, url: Url)
    requires Poised(c, s) && s.queue != [] && Shaped(c, Stage(s, url, 5))
    ensures WorkStep(c, Stage(s, url, 5), 1, Begin(true)) == Some(Stage(s, url, 6))
  {
    c.Bounds(s.queue[0].id);
    WorkerTwice(s, Stage(s, url, 5).workers[1], Stage(s, url, 6).workers[1]);
  }

  lemma EndRound(c: Config, s: State, url: Url)
    requires |s.workers| > 1 && s.queue != [] && s.queue[0].id < |c.plan| == |s.place| == |s.proxied| == |s.parts|
    requires s.parts[s.queue[0].id] == None && c.Want(s.queue[0].id) > 0 && Shaped(c, Asked(s, url))
    ensures DoEnd(c, Asked(s, url), 1, Tried(s, url), 0, 503) == Failing(s, url)
  {
    var i := s.queue[0].id;
    WorkerTwice(s, Asked(s, url).workers[1], Failing(s, url).workers[1]);
    assert s.parts[i := Some([])][i := None] == s.parts;
  }

  lemma LeaseAndBack(leases: multiset<Url>, url: Url)
    ensures leases + multiset{url} - multiset{url} == leases
  {
  }

  /** What drop_pipe does to worker 1. */
  lemma PipeDropped(c: Config, u: State, url: Url, pc: Pc)
    requires |u.workers| > 1 && u.workers[1].pipe == Some(url) && !u.workers[1].direct
    ensures DropPipe(c, u, 1, pc)
            == u.(leases := u.leases - multiset{url}, workers := u.workers[1 := Worker(pc, None, false)])
  {
  }

  lemma DropRound(c: Config, s: State, url: Url)
    requires |s.workers| > 1 && s.queue != [] && s.queue[0].id < |s.place| == |s.proxied|
    ensures DoDrop(c, Failing(s, url), 1) == Some(Failed(s, url))
  {
    WorkerTwice(s, Failing(s, url).workers[1], Failed(s, url).workers[1]);
    LeaseAndBack(s.leases, url);
    PipeDropped(c, Failing(s, url), url, Dropped(Tried(s, url)));
  }

  lemma DecideRound(c: Config, s: State, url: Url)
    requires Poised(c, s) && s.queue != [] && Shaped(c, Stage(s, url, 8))
    ensures WorkStep(c, Stage(s, url, 8), 1, Decide) == Some(Stage(s, url, 9))
  {
    var i := s.queue[0].id;
    WorkerTwice(s, Stage(s, url, 8).workers[1], Worker(Leaving, None, false));
    assert s.place[i] == Queued;
    assert s.place[i := Held(1)][i := Queued] == s.place;
    assert s.place[i := Held(1)][i := Lost] == s.place[i := Lost];
  }

  lemma LeaveRound(s: State, url: Url)
    requires |s.workers| > 1 && s.workers[1] == Worker(Top, None, false)
    requires s.queue != [] && s.queue[0].id < |s.place| == |s.proxied|
    ensures Move(Decided(s, url), 1, Top).(inflight := Decided(s, url).inflight - 1) == AfterRound(s, url)
  {
    WorkerTwice(s, Worker(Leaving, None, false), s.workers[1]);
  }

  lemma EndStep(c: Config, s: State, url: Url)
    requires Poised(c, s) && s.queue != [] && Shaped(c, Asked(s, url))
    ensures WorkStep(c, Asked(s, url), 1, End(503)) == Some(Failing(s, url))
  {
    c.Bounds(s.queue[0].id);
    EndRound(c, s, url);
  }

  lemma DropStep(c: Config, s: State, url: Url)
    requires |s.workers| > 1 && s.queue != [] && s.queue[0].id < |s.place| == |s.proxied| && Shaped(c, Failing(s, url))
    ensures WorkStep(c, Failing(s, url), 1, Drop) == Some(Failed(s, url))
  {
    DropRound(c, s, url);
  }

  lemma LeaveStep(c: Config, s: State, url: Url)
    requires |s.workers| > 1 && s.workers[1] == Worker(Top, None, false)
    requires s.queue != [] && s.queue[0].id < |s.place| == |s.proxied| && Shaped(c, Decided(s, url))
    ensures WorkStep(c, Decided(s, url), 1, Leave) == Some(AfterRound(s, url))
  {
    LeaveRound(s, url);
  }

  lemma RoundStep(c: Config, s: State, url: Url, n: nat)
    requires Poised(c, s) && s.queue != [] && n < 10 && Shaped(c, Stage(s, url, n))
    ensures WorkStep(c, Stage(s, url, n), 1, RoundOp(url, n)) == Some(Stage(s, url, n + 1))
  {
    if n < 4 {
      OpeningRound(c, s, url, n);
    } else if n == 4 {
      ClaimRound(c, s, url);
    } else if n == 5 {
      BeginRound(c, s, url);
    } else if n == 6 {
      EndStep(c, s, url);
    } else if n == 7 {
      DropStep(c, s, url);
    } else if n == 8 {
      DecideRound(c, s, url);
    } else {
      LeaveStep(c, s, url);
    }
  }

  function RoundFrom(url: Url, n: nat): seq<Action>
    decreases 10 - n
  {
    if n >= 10 then [] else [Work(1, RoundOp(url, n))] + RoundFrom(url, n + 1)
  }

  lemma {:induction false} RoundRuns(c: Config, s: State, url: Url, n: nat)
    requires Poised(c, s) && s.queue != [] && n <= 10 && Inv(c, Stage(s, url, n))
    ensures Run(c, Stage(s, url, n), RoundFrom(url, n)) == Some(AfterRound(s, url)) && Inv(c, AfterRound(s, url))
    decreases 10 - n
  {
    if n < 10 {
      var u, a := Stage(s, url, n), Work(1, RoundOp(url, n));
      RoundStep(c, s, url, n);
      StepKeepsInv(c, u, a);
      RoundRuns(c, s, url, n + 1);
      assert RoundFrom(url, n)[1..] == RoundFrom(url, n + 1);
    }
  }

  /** Only this proxy is leased. */
  predicate OnlyVia(actions: seq<Action>, url: Url) {
    forall k :: 0 <= k < |actions| && actions[k].Work? && actions[k].op.Ask? ==> actions[k].op.granted == Some(url)
  }

  lemma {:induction false} RoundIsVia(url: Url, n: nat)
    ensures OnlyVia(RoundFrom(url, n), url)
    decreases 10 - n
  {
    if n < 10 { RoundIsVia(url, n + 1); }
  }

  lemma OneRound(c: Config, s: State, url: Url)
    requires Poised(c, s) && s.queue != []
    ensures Run(c, s, RoundFrom(url, 0)) == Some(AfterRound(s, url)) && Poised(c, AfterRound(s, url))
  {
    RoundRuns(c, s, url, 0);
  }

  // ---- round after round ----

  /** The attempts that the waiting jobs still have. */
  function Left(q: seq<Job>): int {
    if q == [] then 0 else Left(q[..|q| - 1]) + MAX_PROXIES - |q[|q| - 1].tried|
  }

  lemma {:induction false} LeftFront(j: Job, q: seq<Job>)
    ensures Left([j] + q) == MAX_PROXIES - |j.tried| + Left(q)
  {
    var all := [j] + q;
    if q == [] {
      assert all[..0] == [];
    } else {
      assert all[..|all| - 1] == [j] + q[..|q| - 1];
      LeftFront(j, q[..|q| - 1]);
    }
  }

  lemma {:induction false} LeftBounds(q: seq<Job>)
    requires forall k :: 0 <= k < |q| ==> |q[k].tried| < MAX_PROXIES
    ensures Left(q) >= |q|
  {
    if q != [] { LeftBounds(q[..|q| - 1]); }
  }

  lemma WaitingHaveLeft(c: Config, s: State)
    requires Inv(c, s)
    ensures Left(s.queue) >= |s.queue|
  {
    forall k | 0 <= k < |s.queue|
      ensures |s.queue[k].tried| < MAX_PROXIES
    {
      assert ChunkOk(c, s, s.queue[k].id);
    }
    LeftBounds(s.queue);
  }

  lemma RoundUsesOne(c: Config, s: State, url: Url)
    requires Poised(c, s) && s.queue != []
    ensures Left(AfterRound(s, url).queue) == Left(s.queue) - 1
  {
    var j := s.queue[0];
    assert s.queue == [j] + s.queue[1..];
    LeftFront(j, s.queue[1..]);
    assert ChunkOk(c, s, j.id);
    var back := s.queue[1..] + [Back(Tried(s, url))];
    assert back[..|back| - 1] == s.queue[1..];
  }

  /** Rounds until nothing waits. */
  lemma {:induction false} AllRounds(c: Config, s: State, url: Url) returns (actions: seq<Action>, t: State)
    requires Poised(c, s)
    ensures Run(c, s, actions) == Some(t) && Poised(c, t) && t.queue == [] && OnlyVia(actions, url)
    decreases Left(s.queue) + 1
  {
    WaitingHaveLeft(c, s);
    if s.queue == [] {
      actions, t := [], s;
    } else {
      OneRound(c, s, url);
      RoundUsesOne(c, s, url);
      var u := AfterRound(s, url);
      WaitingHaveLeft(c, u);
      var more;
      more, t := AllRounds(c, u, url);
      actions := RoundFrom(url, 0) + more;
      RoundIsVia(url, 0);
      RunJoin(c, s, RoundFrom(url, 0), more);
    }
  }

  // ---- from the start ----

  const FIRST: seq<Action> := [Work(0, Peek), Work(0, TryOpen), Work(0, InitHandle(true))]

  function Slotted(c: Config, workers: nat): State
    requires workers > 1
  {
    var s := Start(c, workers);
    s.(directBusy := true, workers := s.workers[0 := Worker(Ready, None, true)])
  }

  lemma TakesSlot(c: Config, workers: nat)
    requires c.Valid() && c.plan != [] && !c.direct && workers > 1
    ensures Inv(c, Start(c, workers)) && Run(c, Start(c, workers), FIRST) == Some(Slotted(c, workers))
    ensures Inv(c, Slotted(c, workers))
  {
    StartInv(c, workers);
    var s := Start(c, workers);
    var one := s.(workers := s.workers[0 := Worker(Opening, None, false)]);
    var two := s.(directBusy := true, workers := s.workers[0 := Worker(DirectInit, None, false)]);
    var three := Slotted(c, workers);
    assert Step(c, s, FIRST[0]) == Some(one);
    StepKeepsInv(c, s, FIRST[0]);
    assert DropPipe(c, one, 0, Opening) == one;
    assert one.workers[0 := two.workers[0]] == two.workers;
    assert Step(c, one, FIRST[1]) == Some(two);
    StepKeepsInv(c, one, FIRST[1]);
    assert two.workers[0 := three.workers[0]] == three.workers;
    assert Step(c, two, FIRST[2]) == Some(three);
    StepKeepsInv(c, two, FIRST[2]);
    assert FIRST[1..][1..] == [FIRST[2]] && FIRST[1..][1..][1..] == [];
    assert Run(c, three, []) == Some(three);
    assert Run(c, two, [FIRST[2]]) == Some(three);
    assert Run(c, one, FIRST[1..]) == Some(three);
  }

  /** Every download that has a daemon client, no --direct and two workers can use up its proxies: in
      some run every chunk is given up, after 32 attempts through the proxy each. The bound on
      attempts is reached as far as it is about proxies. */
  lemma AllCanBeGivenUp(c: Config, workers: nat, url: Url) returns (actions: seq<Action>, t: State)
    requires c.Valid() && c.plan != [] && !Alone(c, workers)
    ensures RunDownload(c, workers, actions) == Some(t) && OnlyVia(actions, url)
    ensures t.failed == |c.plan| && (forall i :: 0 <= i < |c.plan| ==> t.place[i] == Lost && t.proxied[i] == 32)
    ensures DownloadResults.ChargesOf(c, workers, actions) >= 32 * |c.plan|
  {
    TakesSlot(c, workers);
    var s := Slotted(c, workers);
    var more;
    more, t := AllRounds(c, s, url);
    actions := FIRST + more;
    RunJoin(c, Start(c, workers), FIRST, more);
    forall i | 0 <= i < |c.plan|
      ensures t.place[i] == Lost && t.proxied[i] == MAX_PROXIES
    {
      assert ChunkOk(c, t, i);
    }
    CountBounds(IsLost, t.place);
    ChargesCoverProxied(c, Start(c, workers), actions);
    SumIs(t.proxied, MAX_PROXIES);
    SumIs(Start(c, workers).proxied, 0);
  }

  lemma {:induction false} SumIs(xs: seq<int>, x: int)
    requires forall i :: 0 <= i < |xs| ==> xs[i] == x
    ensures Sum(xs) == x * |xs|
  {
    SumBounds(xs, x, x);
  }

  lemma ProxiedSubject(c: Config, s: State, a: Action, t: State, k: nat)
    requires Inv(c, s) && Step(c, s, a) == Some(t) && Inv(c, t) && k < |c.plan|
    ensures var i := DownloadResults.Subject(s, a);
            t.proxied[k] == s.proxied[k] + Bit(k == i && DownloadResults.StartsProxied(s, a, i))
  {
    DownloadResults.PlaceStep(c, s, a, t, k);
  }

  lemma ChargeIsForStarts(c: Config, s: State, a: Action, t: State)
    requires Inv(c, s) && Inv(c, t) && c.plan != []
    ensures var i := DownloadResults.Subject(s, a);
            DownloadResults.Charge(c, s, a, t) >= Bit(DownloadResults.StartsProxied(s, a, i))
  {
    DownloadResults.SubjectInPlan(c, s, a);
  }

  lemma ChargeCoversProxied(c: Config, s: State, a: Action, t: State)
    requires Inv(c, s) && Step(c, s, a) == Some(t) && Inv(c, t)
    ensures Sum(t.proxied) <= Sum(s.proxied) + DownloadResults.Charge(c, s, a, t)
  {
    if c.plan != [] {
      var i, more := DownloadResults.Subject(s, a), Bit(DownloadResults.StartsProxied(s, a, DownloadResults.Subject(s, a)));
      DownloadResults.SubjectInPlan(c, s, a);
      ChargeIsForStarts(c, s, a, t);
      forall k | 0 <= k < |c.plan|
        ensures t.proxied[k] == s.proxied[k] + if k == i then more else 0
      {
        ProxiedSubject(c, s, a, t, k);
      }
      SumOneMore(s.proxied, t.proxied, i, more);
    }
  }

  lemma OneUpdate(xs: seq<int>, ys: seq<int>, i: nat, more: int)
    requires |ys| == |xs| && i < |xs| && forall k :: 0 <= k < |xs| ==> ys[k] == xs[k] + if k == i then more else 0
    ensures ys == xs[i := xs[i] + more]
  {
  }

  lemma SumOneMore(xs: seq<int>, ys: seq<int>, i: nat, more: int)
    requires |ys| == |xs| && i < |xs| && forall k :: 0 <= k < |xs| ==> ys[k] == xs[k] + if k == i then more else 0
    ensures Sum(ys) == Sum(xs) + more
  {
    OneUpdate(xs, ys, i, more);
    SumUpdate(xs, i, xs[i] + more);
  }

  lemma {:induction false} ChargesCoverProxied(c: Config, s: State, actions: seq<Action>)
    requires Inv(c, s) && Run(c, s, actions).Some?
    ensures Sum(Run(c, s, actions).value.proxied) <= Sum(s.proxied) + DownloadResults.Charges(c, s, actions)
    decreases |actions|
  {
    if actions != [] {
      var t := Step(c, s, actions[0]).value;
      StepKeepsInv(c, s, actions[0]);
      ChargeCoversProxied(c, s, actions[0], t);
      ChargesCoverProxied(c, t, actions[1..]);
    }
  }

  /** Some run has an attempt through a proxy. */
  ghost predicate UsesProxy(c: Config, workers: nat, actions: seq<Action>)
    requires c.Valid()
  {
    var r := RunDownload(c, workers, actions);
    r.Some? && exists i :: 0 <= i < |r.value.proxied| && r.value.proxied[i] > 0
  }

  /** A download can come to use a proxy if and only if there is something to fetch, a daemon client to
      ask, no --direct, and a worker beside the one that has the direct slot. */
  lemma ProxiesAreUsedExactly(c: Config, workers: nat)
    requires c.Valid()
    ensures (exists actions :: UsesProxy(c, workers, actions)) <==> c.plan != [] && c.hasClient && !c.direct && workers >= 2
  {
    if c.plan != [] && !Alone(c, workers) {
      var actions, t := AllCanBeGivenUp(c, workers, "");
      assert t.proxied[0] > 0;
      assert UsesProxy(c, workers, actions);
    }
    forall actions | UsesProxy(c, workers, actions)
      ensures c.plan != [] && !Alone(c, workers)
    {
      if Alone(c, workers) { NoProxyIsUsed(c, workers, actions); }
    }
  }
}
