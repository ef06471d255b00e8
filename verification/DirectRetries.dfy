/** Direct attempts that save nothing are repeated without bound, in every download. */
module DirectRetries {
  import opened Wrappers
  import opened PartFiles
  import opened Download
  import opened DownloadInvariant
  import opened DownloadData
  import opened DownloadRuns

  // ---- one round: worker 0 takes the first job, directly, and gets an error ----

  const ROUND: seq<Action> :=
    [Work(0, Peek), Work(0, TryOpen), Work(0, InitHandle(true)), Work(0, Claim), Work(0, Begin(true)),
     Work(0, End(503)), Work(0, Drop), Work(0, Decide), Work(0, Leave)]

  /** The start, but for the queue. */
  function Rest(c: Config, workers: nat, q: seq<Job>): State { Start(c, workers).(queue := q) }

  /** The start, but for the queue, one chunk and worker 0. */
  function At(c: Config, workers: nat, q: seq<Job>, inflight: int, i: nat, place: Place, part: Part, x: Worker,
              busy: bool): State
    requires workers > 0 && i < |c.plan|
  {
    var s := Start(c, workers);
    s.(queue := q, inflight := inflight, place := s.place[i := place], parts := s.parts[i := part],
       workers := s.workers[0 := x], directBusy := busy)
  }

  /** The queue of a download in which nothing has been tried through a proxy. */
  predicate Untried(c: Config, q: seq<Job>) {
    q != [] && forall k :: 0 <= k < |q| ==> q[k].id < |c.plan| && q[k].tried == []
  }

  function Requeued(j: Job): Job { j.(attempts := if j.attempts + 1 >= CHUNK_TRIES then 0 else j.attempts + 1) }

  function Rotated(q: seq<Job>): seq<Job>
    requires q != []
  {
    q[1..] + [Requeued(q[0])]
  }

  /** The states a round goes through. In proxy mode the direct slot is taken meanwhile. */
  function Stage(c: Config, workers: nat, q: seq<Job>, n: nat): State
    requires workers > 0 && Untried(c, q)
  {
    var j, rest, idle, busy := q[0], q[1..], Worker(Top, None, false), !c.direct;
    if n == 0 then At(c, workers, q, 0, j.id, Queued, None, idle, false)
    else if n == 1 then At(c, workers, q, 0, j.id, Queued, None, Worker(Opening, None, false), false)
    else if n == 2 then At(c, workers, q, 0, j.id, Queued, None, Worker(DirectInit, None, false), busy)
    else if n == 3 then At(c, workers, q, 0, j.id, Queued, None, Worker(Ready, None, true), busy)
    else if n == 4 then At(c, workers, rest, 1, j.id, Held(0), None, Worker(Claimed(j), None, true), busy)
    else if n == 5 then At(c, workers, rest, 1, j.id, Held(0), Some([]), Worker(Fetching(j, 0), None, true), busy)
    else if n == 6 then At(c, workers, rest, 1, j.id, Held(0), None, Worker(Judged(j, false), None, true), busy)
    else if n == 7 then At(c, workers, rest, 1, j.id, Held(0), None, Worker(Dropped(j), None, false), false)
    else if n == 8 then At(c, workers, Rotated(q), 1, j.id, Queued, None, Worker(Leaving, None, false), false)
    else At(c, workers, Rotated(q), 0, j.id, Queued, None, idle, false)
  }

  lemma RestIsAt(c: Config, workers: nat, q: seq<Job>, i: nat)
    requires workers > 0 && i < |c.plan|
    ensures At(c, workers, q, 0, i, Queued, None, Worker(Top, None, false), false) == Rest(c, workers, q)
  {
    var s := Start(c, workers);
    assert s.place[i := Queued] == s.place;
    assert s.parts[i := None] == s.parts;
    assert s.workers[0 := Worker(Top, None, false)] == s.workers;
  }

  lemma UpdateTwice<T>(xs: seq<T>, i: nat, x: T, y: T)
    requires i < |xs|
    ensures xs[i := x][i := y] == xs[i := y]
  {
  }

  /** The next stage differs in worker 0 alone. */
  lemma WorkerUpdates(c: Config, workers: nat, x: Worker, y: Worker)
    requires workers > 0
    ensures Start(c, workers).workers[0 := x][0 := y] == Start(c, workers).workers[0 := y]
  {
    UpdateTwice(Start(c, workers).workers, 0, x, y);
  }

  lemma OpeningStages(c: Config, workers: nat, q: seq<Job>, n: nat)
    requires c.Valid() && workers > 0 && Untried(c, q) && n < 3 && Shaped(c, Stage(c, workers, q, n))
    ensures Step(c, Stage(c, workers, q, n), ROUND[n]) == Some(Stage(c, workers, q, n + 1))
  {
    var s, t := Stage(c, workers, q, n), Stage(c, workers, q, n + 1);
    WorkerUpdates(c, workers, s.workers[0], t.workers[0]);
    if n == 1 {
      WorkerUpdates(c, workers, s.workers[0], s.workers[0]);
      assert DropPipe(c, s, 0, Opening) == s;
    }
  }

  lemma ClaimStage(c: Config, workers: nat, q: seq<Job>)
    requires c.Valid() && workers > 0 && Untried(c, q) && Shaped(c, Stage(c, workers, q, 3))
    ensures Step(c, Stage(c, workers, q, 3), ROUND[3]) == Some(Stage(c, workers, q, 4))
  {
    var s, t := Stage(c, workers, q, 3), Stage(c, workers, q, 4);
    WorkerUpdates(c, workers, s.workers[0], t.workers[0]);
    UpdateTwice(Start(c, workers).place, q[0].id, Queued, Held(0));
  }

  lemma TransferStages(c: Config, workers: nat, q: seq<Job>, n: nat)
    requires c.Valid() && workers > 0 && Untried(c, q) && 4 <= n < 6 && Shaped(c, Stage(c, workers, q, n))
    ensures Step(c, Stage(c, workers, q, n), ROUND[n]) == Some(Stage(c, workers, q, n + 1))
  {
    var s, t := Stage(c, workers, q, n), Stage(c, workers, q, n + 1);
    c.Bounds(q[0].id);
    WorkerUpdates(c, workers, s.workers[0], t.workers[0]);
    UpdateTwice(Start(c, workers).parts, q[0].id, s.parts[q[0].id], t.parts[q[0].id]);
  }

  lemma DropStage(c: Config, workers: nat, q: seq<Job>)
    requires c.Valid() && workers > 0 && Untried(c, q) && Shaped(c, Stage(c, workers, q, 6))
    ensures Step(c, Stage(c, workers, q, 6), ROUND[6]) == Some(Stage(c, workers, q, 7))
  {
    var s, t := Stage(c, workers, q, 6), Stage(c, workers, q, 7);
    WorkerUpdates(c, workers, s.workers[0], t.workers[0]);
  }

  lemma RequeueStages(c: Config, workers: nat, q: seq<Job>, n: nat)
    requires c.Valid() && workers > 0 && Untried(c, q) && 7 <= n < 9 && Shaped(c, Stage(c, workers, q, n))
    ensures Step(c, Stage(c, workers, q, n), ROUND[n]) == Some(Stage(c, workers, q, n + 1))
  {
    var s, t := Stage(c, workers, q, n), Stage(c, workers, q, n + 1);
    WorkerUpdates(c, workers, s.workers[0], t.workers[0]);
    UpdateTwice(Start(c, workers).place, q[0].id, s.place[q[0].id], t.place[q[0].id]);
  }

  lemma EachStage(c: Config, workers: nat, q: seq<Job>, n: nat)
    requires c.Valid() && workers > 0 && Untried(c, q) && n < 9 && Shaped(c, Stage(c, workers, q, n))
    ensures Step(c, Stage(c, workers, q, n), ROUND[n]) == Some(Stage(c, workers, q, n + 1))
  {
    if n < 3 {
      OpeningStages(c, workers, q, n);
    } else if n == 3 {
      ClaimStage(c, workers, q);
    } else if n < 6 {
      TransferStages(c, workers, q, n);
    } else if n == 6 {
      DropStage(c, workers, q);
    } else {
      RequeueStages(c, workers, q, n);
    }
  }

  // ---- counting attempts that save nothing ----

  /** The action ends an attempt at chunk i and leaves nothing more of it on disk than there was. */
  predicate Fruitless(s: State, a: Action, t: State, i: nat)
    requires i < |s.place| == |s.parts| && i < |t.place| == |t.parts|
  {
    EndsTransfer(s, a, i) && Saved(t, i) == Saved(s, i)
  }

  /** How many such attempts there are in a run. */
  ghost function FruitlessIn(c: Config, s: State, actions: seq<Action>, i: nat): nat
    requires Inv(c, s) && i < |c.plan|
    decreases |actions|
  {
    if actions == [] then 0
    else
      var next := Step(c, s, actions[0]);
      if next.None? then 0
      else
        StepKeepsInv(c, s, actions[0]);
        Bit(Fruitless(s, actions[0], next.value, i)) + FruitlessIn(c, next.value, actions[1..], i)
  }

  lemma FruitlessStep(c: Config, s: State, actions: seq<Action>, rest: seq<Action>, t: State, i: nat)
    requires Inv(c, s) && i < |c.plan| && actions != [] && rest == actions[1..] && Step(c, s, actions[0]) == Some(t)
    ensures Inv(c, t) && Run(c, s, actions) == Run(c, t, rest)
    ensures FruitlessIn(c, s, actions, i) == Bit(Fruitless(s, actions[0], t, i)) + FruitlessIn(c, t, rest, i)
  {
    StepKeepsInv(c, s, actions[0]);
  }

  lemma FrontAction(xs: seq<Action>, ys: seq<Action>)
    requires xs != []
    ensures xs + ys != [] && (xs + ys)[0] == xs[0] && (xs + ys)[1..] == xs[1..] + ys
  {
  }

  lemma {:induction false} FruitlessJoin(c: Config, s: State, xs: seq<Action>, ys: seq<Action>, i: nat)
    requires Inv(c, s) && i < |c.plan| && Run(c, s, xs).Some?
    ensures FruitlessIn(c, s, xs + ys, i) == FruitlessIn(c, s, xs, i) + FruitlessIn(c, Run(c, s, xs).value, ys, i)
    decreases |xs|
  {
    if xs == [] {
      assert xs + ys == ys;
    } else {
      var t := Step(c, s, xs[0]).value;
      var rest, all, tail := xs[1..], xs + ys, xs[1..] + ys;
      FrontAction(xs, ys);
      FruitlessStep(c, s, xs, rest, t, i);
      FruitlessStep(c, s, all, tail, t, i);
      FruitlessJoin(c, t, rest, ys, i);
    }
  }

  /** The actions lead from s to t, with at least n fruitless attempts at chunk i on the way. */
  ghost predicate Wastes(c: Config, s: State, actions: seq<Action>, t: State, i: nat, n: nat) {
    && Inv(c, s) && Inv(c, t) && i < |c.plan|
    && Run(c, s, actions) == Some(t) && FruitlessIn(c, s, actions, i) >= n
  }

  lemma WastesJoin(c: Config, s: State, xs: seq<Action>, t: State, ys: seq<Action>, u: State, i: nat, m: nat, n: nat)
    requires Wastes(c, s, xs, t, i, m) && Wastes(c, t, ys, u, i, n)
    ensures Wastes(c, s, xs + ys, u, i, m + n)
  {
    RunJoin(c, s, xs, ys);
    FruitlessJoin(c, s, xs, ys, i);
  }

  lemma ErrorSavesNothing(c: Config, workers: nat, q: seq<Job>)
    requires c.Valid() && workers > 0 && Untried(c, q)
    ensures Fruitless(Stage(c, workers, q, 5), ROUND[5], Stage(c, workers, q, 6), q[0].id)
  {
  }

  lemma {:induction false} RoundFrom(c: Config, workers: nat, q: seq<Job>, n: nat, i: nat)
    requires c.Valid() && workers > 0 && Untried(c, q) && n <= 9 && i < |c.plan| && Inv(c, Stage(c, workers, q, n))
    ensures Wastes(c, Stage(c, workers, q, n), ROUND[n..], Stage(c, workers, q, 9), i, Bit(n <= 5 && q[0].id == i))
    decreases 9 - n
  {
    if n < 9 {
      var s, t := Stage(c, workers, q, n), Stage(c, workers, q, n + 1);
      EachStage(c, workers, q, n);
      StepKeepsInv(c, s, ROUND[n]);
      RoundFrom(c, workers, q, n + 1, i);
      assert ROUND[n..][1..] == ROUND[n + 1..];
      if n == 5 { ErrorSavesNothing(c, workers, q); }
    }
  }

  lemma EndsOfRound(c: Config, workers: nat, q: seq<Job>)
    requires workers > 0 && Untried(c, q)
    ensures Stage(c, workers, q, 0) == Rest(c, workers, q)
    ensures Stage(c, workers, q, 9) == Rest(c, workers, Rotated(q))
  {
    RestIsAt(c, workers, q, q[0].id);
    RestIsAt(c, workers, Rotated(q), q[0].id);
  }

  lemma RotatedIsUntried(c: Config, q: seq<Job>)
    requires Untried(c, q)
    ensures Untried(c, Rotated(q))
  {
  }

  /** One round: the first job has failed once more and waits at the end; nothing else has changed. */
  lemma OneRound(c: Config, workers: nat, q: seq<Job>, i: nat)
    requires c.Valid() && workers > 0 && Untried(c, q) && i < |c.plan| && Inv(c, Rest(c, workers, q))
    ensures Wastes(c, Rest(c, workers, q), ROUND, Rest(c, workers, Rotated(q)), i, Bit(q[0].id == i))
  {
    EndsOfRound(c, workers, q);
    RoundFrom(c, workers, q, 0, i);
    assert ROUND[0..] == ROUND;
  }

  predicate Queues(q: seq<Job>, i: nat, p: nat) { p < |q| && q[p].id == i }

  lemma RotatedQueues(q: seq<Job>, i: nat, p: nat)
    requires Queues(q, i, p)
    ensures if p == 0 then Queues(Rotated(q), i, |q| - 1) else Queues(Rotated(q), i, p - 1)
  {
  }

  /** A round brings chunk i one place forward, or serves it. */
  lemma NextRound(c: Config, workers: nat, q: seq<Job>, i: nat, p: nat) returns (r: seq<Job>, at: nat)
    requires c.Valid() && workers > 0 && Untried(c, q) && i < |c.plan| && Queues(q, i, p) && Inv(c, Rest(c, workers, q))
    ensures Wastes(c, Rest(c, workers, q), ROUND, Rest(c, workers, r), i, Bit(p == 0))
    ensures Untried(c, r) && Queues(r, i, at) && (p > 0 ==> at == p - 1)
  {
    OneRound(c, workers, q, i);
    RotatedIsUntried(c, q);
    RotatedQueues(q, i, p);
    r, at := Rotated(q), if p == 0 then |q| - 1 else p - 1;
  }

  /** After some rounds it is the turn of chunk i. */
  lemma {:induction false} RoundsFor(c: Config, workers: nat, q: seq<Job>, i: nat, p: nat)
    returns (actions: seq<Action>, r: seq<Job>, last: nat)
    requires c.Valid() && workers > 0 && Untried(c, q) && i < |c.plan| && Queues(q, i, p) && Inv(c, Rest(c, workers, q))
    ensures Wastes(c, Rest(c, workers, q), actions, Rest(c, workers, r), i, 1)
    ensures Untried(c, r) && Queues(r, i, last)
    decreases p
  {
    var next, at := NextRound(c, workers, q, i, p);
    if p == 0 {
      actions, r, last := ROUND, next, at;
    } else {
      var more;
      more, r, last := RoundsFor(c, workers, next, i, at);
      actions := ROUND + more;
      WastesJoin(c, Rest(c, workers, q), ROUND, Rest(c, workers, next), more, Rest(c, workers, r), i, 0, 1);
    }
  }

  lemma {:induction false} ManyRounds(c: Config, workers: nat, q: seq<Job>, i: nat, p: nat, n: nat)
    returns (actions: seq<Action>, r: seq<Job>)
    requires c.Valid() && workers > 0 && Untried(c, q) && i < |c.plan| && Queues(q, i, p) && Inv(c, Rest(c, workers, q))
    ensures Wastes(c, Rest(c, workers, q), actions, Rest(c, workers, r), i, n)
    decreases n
  {
    if n == 0 {
      actions, r := [], q;
    } else {
      var first, s, last := RoundsFor(c, workers, q, i, p);
      var more;
      more, r := ManyRounds(c, workers, s, i, last, n - 1);
      actions := first + more;
      WastesJoin(c, Rest(c, workers, q), first, Rest(c, workers, s), more, Rest(c, workers, r), i, 1, n - 1);
    }
  }

  // ---- the theorem ----

  /** A run of the download with at least n attempts at chunk i that save nothing, after which no
      chunk is settled and none was given up. */
  ghost predicate Retries(c: Config, workers: nat, actions: seq<Action>, i: nat, n: nat)
    requires c.Valid()
  {
    StartInv(c, workers);
    var r := RunDownload(c, workers, actions);
    && i < |c.plan| && r.Some? && FruitlessIn(c, Start(c, workers), actions, i) >= n
    && (forall k :: 0 <= k < |r.value.place| ==> !Settled(r.value.place[k]))
  }

  /** README.md:109 promises that a stalled chunk is requeued up to eight times. There is no such
      bound for any chunk of any download that has a worker. */
  lemma EveryChunkIsRetried(c: Config, workers: nat, i: nat, n: nat)
    requires c.Valid() && workers > 0 && i < |c.plan|
    ensures exists actions :: Retries(c, workers, actions, i, n)
  {
    StartInv(c, workers);
    var q := Start(c, workers).queue;
    assert Rest(c, workers, q) == Start(c, workers);
    assert Queues(q, i, i);
    var actions, r := ManyRounds(c, workers, q, i, i, n);
    assert Retries(c, workers, actions, i, n);
  }

  lemma {:induction false} NobodyTries(c: Config, s: State, actions: seq<Action>, i: nat)
    requires Inv(c, s) && i < |c.plan| && s.workers == []
    ensures FruitlessIn(c, s, actions, i) == 0
    decreases |actions|
  {
    if actions != [] && Step(c, s, actions[0]).Some? {
      StepKeepsInv(c, s, actions[0]);
      NobodyTries(c, Step(c, s, actions[0]).value, actions[1..], i);
    }
  }

  /** Some run has at least n fruitless attempts at some chunk, and nothing to show for it. */
  ghost predicate CanWaste(c: Config, workers: nat, n: nat)
    requires c.Valid()
  {
    exists actions, i: nat :: Retries(c, workers, actions, i, n)
  }

  /** Attempts that save nothing are unbounded if and only if there is something to fetch and a
      worker to fetch it, with --direct or without, with a daemon or without. */
  lemma RetriesAreUnboundedExactly(c: Config, workers: nat)
    requires c.Valid()
    ensures (forall n: nat :: CanWaste(c, workers, n)) <==> c.plan != [] && workers > 0
  {
    if c.plan != [] && workers > 0 {
      forall n: nat
        ensures CanWaste(c, workers, n)
      {
        EveryChunkIsRetried(c, workers, 0, n);
      }
    } else {
      forall actions, i: nat
        ensures !Retries(c, workers, actions, i, 1)
      {
        StartInv(c, workers);
        if i < |c.plan| { NobodyTries(c, Start(c, workers), actions, i); }
      }
      assert !CanWaste(c, workers, 1);
    }
  }
}
