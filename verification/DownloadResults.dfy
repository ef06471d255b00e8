/** What a whole download delivers, and how often it can try. */
module DownloadResults {
  import opened Wrappers
  import opened Counting
  import opened Planner
  import opened PartFiles
  import opened Download
  import opened DownloadInvariant
  import opened DownloadData
  import opened DownloadRuns

  // ---- the output is right ----

  /** The transfer assumption, for the transfer that action a ends, if it ends one. */
  ghost predicate Honest(c: Config, s: State, a: Action)
    requires Inv(c, s)
  {
    forall i :: 0 <= i < |c.plan| && EndsTransfer(s, a, i) ==>
                  Faithful(c.Range(i), |Saved(s, i)|, Delivered(s, i), a.op.code)
  }

  /** Every transfer that ends in the run keeps the assumption. */
  ghost predicate HonestRun(c: Config, s: State, actions: seq<Action>)
    requires Inv(c, s)
    decreases |actions|
  {
    actions == [] ||
    var next := Step(c, s, actions[0]);
    next.Some? && Honest(c, s, actions[0]) && (StepKeepsInv(c, s, actions[0]); HonestRun(c, next.value, actions[1..]))
  }

  /** Every part is a prefix of the range it stands for. */
  predicate Clean(c: Config, s: State)
    requires c.Valid() && Shaped(c, s)
  {
    forall i :: 0 <= i < |c.plan| ==> Saved(s, i) <= c.Range(i)
  }

  /** The transfer that action a ends, if it ends one, is harmless. */
  ghost predicate HarmlessStep(c: Config, s: State, a: Action)
    requires Inv(c, s)
  {
    forall i :: 0 <= i < |c.plan| && EndsTransfer(s, a, i) ==>
                  Harmless(c.Range(i), |Saved(s, i)|, Delivered(s, i), a.op.code)
  }

  lemma HonestIsHarmless(c: Config, s: State, a: Action)
    requires Inv(c, s) && Honest(c, s, a)
    ensures HarmlessStep(c, s, a)
  {
  }

  /** A chunk's part is a prefix of its range after a step if and only if its transfer, if the step
      ends one, was harmless. */
  lemma CleanChunkExactly(c: Config, s: State, a: Action, t: State, i: nat)
    requires Inv(c, s) && Step(c, s, a) == Some(t) && Inv(c, t) && Clean(c, s) && i < |c.plan|
    ensures Saved(t, i) <= c.Range(i)
            <==> (EndsTransfer(s, a, i) ==> Harmless(c.Range(i), |Saved(s, i)|, Delivered(s, i), a.op.code))
  {
    SavedStep(c, s, a, t, i);
    c.Bounds(i);
    if EndsTransfer(s, a, i) {
      TransferStartsShort(c, s, a, i);
      SettleKeepsPrefixExactly(c.Range(i), Some(Saved(s, i)), Delivered(s, i), a.op.code);
    }
  }

  lemma CleanStepExactly(c: Config, s: State, a: Action, t: State)
    requires Inv(c, s) && Step(c, s, a) == Some(t) && Inv(c, t) && Clean(c, s)
    ensures Clean(c, t) <==> HarmlessStep(c, s, a)
  {
    forall i | 0 <= i < |c.plan|
      ensures Saved(t, i) <= c.Range(i)
              <==> (EndsTransfer(s, a, i) ==> Harmless(c.Range(i), |Saved(s, i)|, Delivered(s, i), a.op.code))
    {
      CleanChunkExactly(c, s, a, t, i);
    }
  }

  lemma CleanStep(c: Config, s: State, a: Action, t: State)
    requires Inv(c, s) && Step(c, s, a) == Some(t) && Inv(c, t) && Clean(c, s) && Honest(c, s, a)
    ensures Clean(c, t)
  {
    HonestIsHarmless(c, s, a);
    CleanStepExactly(c, s, a, t);
  }

  /** Every transfer that ends in the run is harmless. */
  ghost predicate HarmlessRun(c: Config, s: State, actions: seq<Action>)
    requires Inv(c, s)
    decreases |actions|
  {
    actions == [] ||
    var next := Step(c, s, actions[0]);
    next.Some? && HarmlessStep(c, s, actions[0])
    && (StepKeepsInv(c, s, actions[0]); HarmlessRun(c, next.value, actions[1..]))
  }

  /** Every part is a prefix of its range in every state of the run. */
  ghost predicate CleanRun(c: Config, s: State, actions: seq<Action>)
    requires Inv(c, s)
    decreases |actions|
  {
    Clean(c, s) &&
    (actions == [] ||
     var next := Step(c, s, actions[0]);
     next.Some? && (StepKeepsInv(c, s, actions[0]); CleanRun(c, next.value, actions[1..])))
  }

  /** The exact condition on the environment: parts are prefixes of their ranges throughout a run if
      and only if every transfer that ends in it is harmless. */
  lemma {:induction false} CleanRunExactly(c: Config, s: State, actions: seq<Action>)
    requires Inv(c, s) && Clean(c, s) && Run(c, s, actions).Some?
    ensures CleanRun(c, s, actions) <==> HarmlessRun(c, s, actions)
    decreases |actions|
  {
    if actions != [] {
      var a := actions[0];
      var t := Step(c, s, a).value;
      StepKeepsInv(c, s, a);
      CleanStepExactly(c, s, a, t);
      if Clean(c, t) { CleanRunExactly(c, t, actions[1..]); }
    }
  }

  lemma TransferStartsShort(c: Config, s: State, a: Action, i: nat)
    requires Inv(c, s) && i < |c.plan| && EndsTransfer(s, a, i)
    ensures |Saved(s, i)| < c.Want(i)
  {
    assert WorkerOk(c, s, a.w);
  }

  /** On every step, honest or not, the bytes saved for a chunk are kept: an attempt that
      cannot be used is rolled back to exactly what was there before. */
  lemma SavedOnlyGrows(c: Config, s: State, a: Action, t: State, i: nat)
    requires Inv(c, s) && Step(c, s, a) == Some(t) && Inv(c, t) && i < |c.plan|
    ensures Saved(s, i) <= Saved(t, i)
  {
    SavedStep(c, s, a, t, i);
    if EndsTransfer(s, a, i) {
      TransferStartsShort(c, s, a, i);
      SettleOutcome(Some(Saved(s, i)), c.Want(i), Delivered(s, i), a.op.code);
    }
  }

  /** The number of bytes the first n chunks plan for. */
  function Planned(c: Config, n: nat): int
    requires n <= |c.plan|
  {
    if n == 0 then 0 else c.plan[n - 1].end + 1
  }

  lemma PlannedStep(c: Config, n: nat)
    requires c.Valid() && n < |c.plan|
    ensures Planned(c, n + 1) == Planned(c, n) + c.Want(n) && c.Want(n) > 0
    ensures Planned(c, n) == c.plan[n].start
    ensures Planned(c, |c.plan|) == Max(0, c.size)
  {
  }

  /** Parts that are complete concatenate to the bytes they plan for. */
  lemma {:induction false} ConcatComplete(c: Config, parts: seq<Part>, n: nat)
    requires c.Valid() && |parts| == |c.plan| && n <= |c.plan|
    requires forall i :: 0 <= i < n ==> parts[i] == Some(c.Range(i))
    ensures 0 <= Planned(c, n) <= |c.remote|
    ensures Concat(parts[..n]) == Some(c.remote[..Planned(c, n)])
  {
    if n > 0 {
      ConcatComplete(c, parts, n - 1);
      c.Bounds(n - 1);
      PlannedStep(c, n - 1);
      assert parts[..n][..n - 1] == parts[..n - 1];
      var m := Planned(c, n - 1);
      assert c.remote[..m] + c.remote[m..Planned(c, n)] == c.remote[..Planned(c, n)];
    }
  }

  /** Parts that have at least their planned sizes: the total tells whether one has more. */
  lemma {:induction false} ConcatSize(c: Config, parts: seq<Part>, n: nat)
    requires c.Valid() && |parts| == |c.plan| && n <= |c.plan|
    requires forall i :: 0 <= i < n ==> Size(parts[i]) >= c.Want(i)
    ensures Concat(parts[..n]).Some? && |Concat(parts[..n]).value| >= Planned(c, n)
    ensures |Concat(parts[..n]).value| == Planned(c, n) <==> forall i :: 0 <= i < n ==> Size(parts[i]) == c.Want(i)
  {
    if n > 0 {
      ConcatSize(c, parts, n - 1);
      PlannedStep(c, n - 1);
      assert parts[..n][..n - 1] == parts[..n - 1];
    }
  }

  /** When the workers are gone and nothing failed, every part is on disk and long enough. */
  lemma AllDone(c: Config, s: State, i: nat)
    requires Inv(c, s) && s.main.Joined? && s.failed == 0 && i < |c.plan|
    ensures s.place[i].Done? && Size(s.parts[i]) >= c.Want(i)
    ensures Saved(s, i) == Content(s.parts[i])
  {
    CountBounds(IsLost, s.place);
    assert ChunkOk(c, s, i);
  }

  lemma PartsComplete(c: Config, s: State)
    requires Inv(c, s) && Clean(c, s) && s.main.Joined? && s.failed == 0
    ensures forall i :: 0 <= i < |c.plan| ==> s.parts[i] == Some(c.Range(i))
  {
    forall i | 0 <= i < |c.plan|
      ensures s.parts[i] == Some(c.Range(i))
    {
      AllDone(c, s, i);
      c.Bounds(i);
      var p := Content(s.parts[i]);
      assert p <= c.Range(i) && |p| == |c.Range(i)|;
      assert p == c.Range(i)[..|p|] == c.Range(i);
    }
  }

  /** Assembly after an honest run succeeds exactly when no chunk was given up, the output
      file could be opened and everything written to it was kept; and then the output is the
      first `size` bytes of the remote file. */
  lemma AssemblyIsRight(c: Config, s: State, canOpen: bool, kept: nat)
    requires Inv(c, s) && Clean(c, s) && s.main.Joined?
    ensures DoAssemble(c, s, canOpen, kept).main.ok <==>
              s.failed == 0 && canOpen && c.size >= 0 && kept >= c.size
    ensures DoAssemble(c, s, canOpen, kept).main.ok ==>
              DoAssemble(c, s, canOpen, kept).main.output == Some(c.remote[..c.size])
  {
    if s.failed == 0 {
      PartsComplete(c, s);
      ConcatComplete(c, s.parts, |c.plan|);
      assert s.parts[..|c.plan|] == s.parts;
    }
  }

  /** Without any assumption on the transfers: a successful assembly whose output was written
      in full means that every part has exactly the planned number of bytes. */
  lemma SuccessMeansExactSizes(c: Config, s: State, canOpen: bool, kept: nat)
    requires Reachable(c, s) && s.main.Joined?
    requires DoAssemble(c, s, canOpen, kept).main.ok
    requires Concat(s.parts).Some? ==> kept >= |Concat(s.parts).value|
    ensures forall i :: 0 <= i < |c.plan| ==> Size(s.parts[i]) == c.Want(i)
  {
    ReachableInv(c, s);
    forall i | 0 <= i < |c.plan|
      ensures Size(s.parts[i]) >= c.Want(i)
    {
      AllDone(c, s, i);
    }
    ConcatSize(c, s.parts, |c.plan|);
    assert s.parts[..|c.plan|] == s.parts;
    if c.plan != [] { PlannedStep(c, 0); }
  }

  lemma SliceOfFront(front: Bytes, last: Bytes, a: nat, b: nat)
    requires a <= b <= |front|
    ensures (front + last)[a..b] == front[a..b]
  {
  }

  lemma SliceOfLast(front: Bytes, last: Bytes, b: nat)
    requires b == |front| + |last|
    ensures (front + last)[|front|..b] == last
  {
  }

  /** The last of the first n parts follows what the others give. */
  lemma ConcatLast(parts: seq<Part>, n: nat)
    requires 0 < n <= |parts| && Concat(parts[..n - 1]).Some? && parts[n - 1].Some?
    ensures Concat(parts[..n]) == Some(Concat(parts[..n - 1]).value + Content(parts[n - 1]))
  {
    assert parts[..n][..n - 1] == parts[..n - 1];
  }

  predicate ExactParts(c: Config, parts: seq<Part>) {
    |parts| == |c.plan| && forall j :: 0 <= j < |parts| ==> parts[j].Some? && Size(parts[j]) == c.Want(j)
  }

  lemma {:induction false} ConcatExact(c: Config, parts: seq<Part>, n: nat)
    requires c.Valid() && ExactParts(c, parts) && n <= |c.plan|
    ensures Concat(parts[..n]).Some? && |Concat(parts[..n]).value| == Planned(c, n)
  {
    if n > 0 {
      ConcatExact(c, parts, n - 1);
      ConcatLast(parts, n);
      PlannedStep(c, n - 1);
    }
  }

  /** Every part is where its chunk is in the file. */
  lemma {:induction false} ConcatParts(c: Config, parts: seq<Part>, n: nat, i: nat)
    requires c.Valid() && ExactParts(c, parts) && i < n <= |c.plan|
    ensures var all := Concat(parts[..n]);
            && all.Some? && 0 <= c.plan[i].start <= c.plan[i].end < |all.value|
            && all.value[c.plan[i].start..c.plan[i].end + 1] == Content(parts[i])
  {
    ConcatExact(c, parts, n - 1);
    ConcatExact(c, parts, n);
    ConcatLast(parts, n);
    PlannedStep(c, i);
    c.Bounds(i);
    var front, last := Concat(parts[..n - 1]).value, Content(parts[n - 1]);
    if i < n - 1 {
      ConcatParts(c, parts, n - 1, i);
      SliceOfFront(front, last, c.plan[i].start, c.plan[i].end + 1);
    } else {
      SliceOfLast(front, last, c.plan[i].end + 1);
    }
  }

  lemma SuccessMeansExactParts(c: Config, s: State, canOpen: bool, kept: nat)
    requires Reachable(c, s) && s.main.Joined?
    requires DoAssemble(c, s, canOpen, kept).main.ok
    requires Concat(s.parts).Some? ==> kept >= |Concat(s.parts).value|
    ensures c.Valid() && ExactParts(c, s.parts)
    ensures 0 <= c.size <= |c.remote| && Concat(s.parts).Some?
    ensures DoAssemble(c, s, canOpen, kept).main.output == Concat(s.parts)
    ensures forall i :: 0 <= i < |c.plan| && i < |s.place| ==> Saved(s, i) == Content(s.parts[i])
  {
    ReachableInv(c, s);
    SuccessMeansExactSizes(c, s, canOpen, kept);
    forall i | 0 <= i < |c.plan|
      ensures s.parts[i].Some? && Saved(s, i) == Content(s.parts[i])
    {
      AllDone(c, s, i);
      c.Bounds(i);
    }
  }

  /** A successful download has written the right bytes if and only if every part was a prefix of its
      range when the workers were gone. */
  lemma OutputIsRightAtJoin(c: Config, s: State, canOpen: bool, kept: nat)
    requires Reachable(c, s) && s.main.Joined?
    requires DoAssemble(c, s, canOpen, kept).main.ok
    requires Concat(s.parts).Some? ==> kept >= |Concat(s.parts).value|
    ensures c.Valid() && Shaped(c, s) && 0 <= c.size <= |c.remote|
    ensures DoAssemble(c, s, canOpen, kept).main.output == Some(c.remote[..c.size]) <==> Clean(c, s)
  {
    ReachableInv(c, s);
    SuccessMeansExactParts(c, s, canOpen, kept);
    if Clean(c, s) { AssemblyIsRight(c, s, canOpen, kept); }
    if Concat(s.parts) == Some(c.remote[..c.size]) {
      forall i | 0 <= i < |c.plan|
        ensures Saved(s, i) <= c.Range(i)
      {
        RightPart(c, s.parts, i);
      }
    }
  }

  /** Saved bytes are never lost, so parts that are right at the end of a run were right throughout. */
  lemma {:induction false} CleanToTheEnd(c: Config, s: State, actions: seq<Action>)
    requires Inv(c, s) && Run(c, s, actions).Some? && Clean(c, Run(c, s, actions).value)
    ensures CleanRun(c, s, actions)
    decreases |actions|
  {
    if actions != [] {
      var a := actions[0];
      var t := Step(c, s, a).value;
      StepKeepsInv(c, s, a);
      CleanToTheEnd(c, t, actions[1..]);
      forall i | 0 <= i < |c.plan|
        ensures Saved(s, i) <= c.Range(i)
      {
        SavedOnlyGrows(c, s, a, t, i);
      }
    }
  }

  lemma {:induction false} CleanAtTheEnd(c: Config, s: State, actions: seq<Action>)
    requires Inv(c, s) && CleanRun(c, s, actions)
    ensures Run(c, s, actions).Some? && Clean(c, Run(c, s, actions).value)
    decreases |actions|
  {
    if actions != [] {
      StepKeepsInv(c, s, actions[0]);
      CleanAtTheEnd(c, Step(c, s, actions[0]).value, actions[1..]);
    }
  }

  ghost predicate HarmlessDownload(c: Config, workers: nat, actions: seq<Action>)
    requires c.Valid()
  {
    StartInv(c, workers);
    HarmlessRun(c, Start(c, workers), actions)
  }

  /** The exact condition on the transfers, for every run of any number of workers after which the
      assembly succeeds and keeps all it writes: the output is the first `size` bytes of the remote
      file if and only if every transfer of the run was harmless. One that was not shows in the
      output, whatever came after it. */
  lemma OutputIsRightExactly(c: Config, workers: nat, actions: seq<Action>, s: State, canOpen: bool, kept: nat)
    requires c.Valid() && RunDownload(c, workers, actions) == Some(s) && s.main.Joined?
    requires DoAssemble(c, s, canOpen, kept).main.ok
    requires Concat(s.parts).Some? ==> kept >= |Concat(s.parts).value|
    ensures 0 <= c.size <= |c.remote|
    ensures DoAssemble(c, s, canOpen, kept).main.output == Some(c.remote[..c.size]) <==> HarmlessDownload(c, workers, actions)
  {
    OutputIsRightAtJoin(c, s, canOpen, kept);
    StartInv(c, workers);
    var start := Start(c, workers);
    CleanRunExactly(c, start, actions);
    if Clean(c, s) { CleanToTheEnd(c, start, actions); }
    if CleanRun(c, start, actions) { CleanAtTheEnd(c, start, actions); }
  }

  lemma RightPart(c: Config, parts: seq<Part>, i: nat)
    requires c.Valid() && ExactParts(c, parts) && i < |c.plan| && 0 <= c.size <= |c.remote|
    requires Concat(parts) == Some(c.remote[..c.size])
    ensures Content(parts[i]) == c.Range(i)
  {
    c.Bounds(i);
    ConcatParts(c, parts, |c.plan|, i);
    assert parts[..|c.plan|] == parts;
    SliceOfFront(c.remote[..c.size], c.remote[c.size..], c.plan[i].start, c.plan[i].end + 1);
    assert c.remote[..c.size] + c.remote[c.size..] == c.remote;
  }

  /** A finished download that reports success has written the first `size` remote bytes. */
  predicate OutputOk(c: Config, s: State) {
    s.main.Ended? && s.main.ok ==> 0 <= c.size <= |c.remote| && s.main.output == Some(c.remote[..c.size])
  }

  lemma OutputStep(c: Config, s: State, a: Action, t: State)
    requires Inv(c, s) && Step(c, s, a) == Some(t) && Clean(c, s) && OutputOk(c, s)
    ensures OutputOk(c, t)
  {
    if a.MainAssemble? {
      AssemblyIsRight(c, s, a.canOpen, a.kept);
    } else if a.Work? {
      WorkersLeaveMain(c, s, a.w, a.op);
    }
  }

  lemma WorkersLeaveMain(c: Config, s: State, w: nat, op: Op)
    requires Shaped(c, s) && w < |s.workers| && WorkStep(c, s, w, op).Some?
    ensures WorkStep(c, s, w, op).value.main == s.main
  {
  }

  lemma {:induction false} HonestRunsStayClean(c: Config, s: State, actions: seq<Action>)
    requires Inv(c, s) && Clean(c, s) && OutputOk(c, s) && HonestRun(c, s, actions)
    ensures Run(c, s, actions).Some?
    ensures var t := Run(c, s, actions).value; Clean(c, t) && OutputOk(c, t)
    decreases |actions|
  {
    if actions != [] {
      var a, t := actions[0], Step(c, s, actions[0]).value;
      StepKeepsInv(c, s, a);
      CleanStep(c, s, a, t);
      OutputStep(c, s, a, t);
      HonestRunsStayClean(c, t, actions[1..]);
    }
  }

  ghost predicate HonestDownload(c: Config, workers: nat, actions: seq<Action>)
    requires c.Valid()
  {
    StartInv(c, workers);
    HonestRun(c, Start(c, workers), actions)
  }

  /** The download is correct: whatever the number of workers, whatever the interleaving and
      however transfers stop, fail and are resumed, if they are honest then every part is at
      every moment a prefix of its range, and a run that reports success has produced exactly
      the first `size` bytes of the remote file. */
  lemma DownloadIsCorrect(c: Config, workers: nat, actions: seq<Action>)
    requires c.Valid() && HonestDownload(c, workers, actions)
    ensures var r := RunDownload(c, workers, actions);
            r.Some? && Clean(c, r.value) && OutputOk(c, r.value)
  {
    StartInv(c, workers);
    HonestRunsStayClean(c, Start(c, workers), actions);
  }

  // ---- attempts are bounded ----

  /** Action a starts an attempt at chunk i through a proxy. */
  predicate StartsProxied(s: State, a: Action, i: nat) {
    && a.Work? && a.op.Claim? && a.w < |s.workers| && s.workers[a.w].pipe.Some?
    && s.queue != [] && s.queue[0].id == i
  }

  /** Action a ends an attempt that has added to the part of chunk i. */
  predicate GrowsPart(s: State, a: Action, t: State, i: nat)
    requires i < |s.place| == |s.parts| == |t.parts| == |t.place|
  {
    EndsTransfer(s, a, i) && |Saved(t, i)| > |Saved(s, i)|
  }

  lemma ClaimPlaces(c: Config, s: State, w: nat, t: State, i: nat)
    requires Inv(c, s) && w < |s.workers| && WorkStep(c, s, w, Claim) == Some(t) && s.queue != [] && i < |c.plan|
    ensures |t.place| == |t.proxied| == |c.plan| && (Settled(s.place[i]) ==> t.place[i] == s.place[i])
    ensures t.proxied[i] == s.proxied[i] + if StartsProxied(s, Work(w, Claim), i) then 1 else 0
  {
    assert s.place[s.queue[0].id] == Queued;
  }

  lemma JobPlaces(c: Config, s: State, w: nat, op: Op, t: State, i: nat)
    requires Inv(c, s) && w < |s.workers| && WorkStep(c, s, w, op) == Some(t) && i < |c.plan|
    requires op.Begin? || op.Receive? || op.End? || op.Tally? || op.Decide?
    ensures t.proxied == s.proxied
    ensures |t.place| == |c.plan| && (Settled(s.place[i]) ==> t.place[i] == s.place[i])
  {
    assert WorkerOk(c, s, w);
  }

  /** Settled chunks stay settled, and only a proxied attempt counts as one. */
  lemma PlaceStep(c: Config, s: State, a: Action, t: State, i: nat)
    requires Inv(c, s) && Step(c, s, a) == Some(t) && Inv(c, t) && i < |c.plan|
    ensures Settled(s.place[i]) ==> t.place[i] == s.place[i]
    ensures t.proxied[i] == s.proxied[i] + if StartsProxied(s, a, i) then 1 else 0
  {
    if a.Work? {
      if IsQuiet(s, a.op) {
        QuietActions(c, s, a.w, a.op);
      } else if a.op.Claim? {
        ClaimPlaces(c, s, a.w, t, i);
      } else {
        JobPlaces(c, s, a.w, a.op, t, i);
      }
    }
  }

  /** What an unsettled chunk can still use up: proxied attempts and missing bytes. */
  function Term(c: Config, s: State, i: nat): int
    requires Shaped(c, s) && i < |c.plan|
  {
    if Settled(s.place[i]) then 0
    else MAX_PROXIES - s.proxied[i] + Max(0, c.Want(i) - |Saved(s, i)|)
  }

  function Terms(c: Config, s: State): seq<int>
    requires Shaped(c, s)
  {
    seq(|c.plan|, i requires 0 <= i < |c.plan| => Term(c, s, i))
  }

  /** The chunk an action is about. */
  function Subject(s: State, a: Action): nat {
    if !a.Work? || a.w >= |s.workers| then 0
    else if a.op.Claim? && s.queue != [] then s.queue[0].id
    else if HeldJob(s.workers[a.w].pc).Some? then HeldJob(s.workers[a.w].pc).value.id
    else 0
  }

  /** What an action is charged: one for starting a proxied attempt, one for ending an attempt
      that made progress. */
  function Charge(c: Config, s: State, a: Action, t: State): nat
    requires Shaped(c, s) && Shaped(c, t)
  {
    var i := Subject(s, a);
    if i >= |c.plan| then 0
    else (if StartsProxied(s, a, i) then 1 else 0) + (if GrowsPart(s, a, t, i) then 1 else 0)
  }

  lemma TermStep(c: Config, s: State, a: Action, t: State, i: nat)
    requires Inv(c, s) && Step(c, s, a) == Some(t) && Inv(c, t) && i < |c.plan|
    ensures Term(c, t, i) + (if i == Subject(s, a) then Charge(c, s, a, t) else 0) <= Term(c, s, i)
  {
    PlaceStep(c, s, a, t, i);
    SavedOnlyGrows(c, s, a, t, i);
    assert ChunkOk(c, t, i) && ChunkOk(c, s, i);
    if StartsProxied(s, a, i) { assert s.queue[0] == s.queue[0]; }
    if EndsTransfer(s, a, i) {
      TransferStartsShort(c, s, a, i);
      EndKeepsPlace(c, s, a, t, i);
    }
  }

  lemma EndKeepsPlace(c: Config, s: State, a: Action, t: State, i: nat)
    requires Inv(c, s) && Step(c, s, a) == Some(t) && i < |c.plan| && EndsTransfer(s, a, i)
    ensures t.place == s.place && !Settled(s.place[i])
  {
    assert WorkerOk(c, s, a.w);
  }

  lemma SubjectInPlan(c: Config, s: State, a: Action)
    requires Inv(c, s)
    ensures c.plan != [] ==> Subject(s, a) < |c.plan|
  {
    if a.Work? && a.w < |s.workers| { assert WorkerOk(c, s, a.w); }
  }

  /** The potential drops by at least the charge of every action. */
  lemma PotentialStep(c: Config, s: State, a: Action, t: State)
    requires Inv(c, s) && Step(c, s, a) == Some(t) && Inv(c, t)
    ensures Sum(Terms(c, t)) + Charge(c, s, a, t) <= Sum(Terms(c, s))
  {
    forall i | 0 <= i < |c.plan|
      ensures Terms(c, t)[i] + (if i == Subject(s, a) then Charge(c, s, a, t) else 0) <= Terms(c, s)[i]
    {
      TermStep(c, s, a, t, i);
    }
    SubjectInPlan(c, s, a);
    if c.plan != [] {
      SumShrinks(Terms(c, s), Terms(c, t), Subject(s, a), Charge(c, s, a, t));
    }
  }

  /** The charges of a run: proxied attempts started plus attempts that made progress. */
  ghost function Charges(c: Config, s: State, actions: seq<Action>): nat
    requires Inv(c, s)
    decreases |actions|
  {
    if actions == [] then 0
    else
      var next := Step(c, s, actions[0]);
      if next.None? then 0
      else
        StepKeepsInv(c, s, actions[0]);
        Charge(c, s, actions[0], next.value) + Charges(c, next.value, actions[1..])
  }

  ghost function ChargesOf(c: Config, workers: nat, actions: seq<Action>): nat
    requires c.Valid()
  {
    StartInv(c, workers);
    Charges(c, Start(c, workers), actions)
  }

  lemma {:induction false} ChargesArePaid(c: Config, s: State, actions: seq<Action>)
    requires Inv(c, s) && Run(c, s, actions).Some?
    ensures Charges(c, s, actions) + Sum(Terms(c, Run(c, s, actions).value)) <= Sum(Terms(c, s))
    decreases |actions|
  {
    if actions != [] {
      var a, t := actions[0], Step(c, s, actions[0]).value;
      StepKeepsInv(c, s, a);
      PotentialStep(c, s, a, t);
      ChargesArePaid(c, t, actions[1..]);
    }
  }

  lemma {:induction false} SumOfTerms(c: Config, s: State, n: nat)
    requires c.Valid() && Shaped(c, s) && n <= |c.plan|
    requires forall i :: 0 <= i < |c.plan| ==> Term(c, s, i) == MAX_PROXIES + c.Want(i)
    ensures Sum(Terms(c, s)[..n]) == MAX_PROXIES * n + Planned(c, n)
  {
    if n > 0 {
      SumOfTerms(c, s, n - 1);
      PlannedStep(c, n - 1);
      assert Terms(c, s)[..n][..n - 1] == Terms(c, s)[..n - 1];
    }
  }

  /** In every run, proxied attempts and attempts that add bytes are together at most
      32 per chunk plus one per byte. Direct attempts that add nothing are not counted. */
  lemma AttemptsAreBounded(c: Config, workers: nat, actions: seq<Action>)
    requires c.Valid() && RunDownload(c, workers, actions).Some?
    ensures ChargesOf(c, workers, actions) <= 32 * |c.plan| + Max(0, c.size)
  {
    StartInv(c, workers);
    var s := Start(c, workers);
    forall i | 0 <= i < |c.plan|
      ensures Term(c, s, i) == MAX_PROXIES + c.Want(i)
    {
      c.Bounds(i);
    }
    ChargesArePaid(c, s, actions);
    SumOfTerms(c, s, |c.plan|);
    assert Terms(c, s)[..|c.plan|] == Terms(c, s);
    if c.plan != [] { PlannedStep(c, 0); }
    var t := Run(c, s, actions).value;
    TermsNonNegative(c, t);
  }

  lemma TermsNonNegative(c: Config, s: State)
    requires Inv(c, s)
    ensures Sum(Terms(c, s)) >= 0
  {
    forall i | 0 <= i < |c.plan|
      ensures 0 <= Terms(c, s)[i]
    {
      assert ChunkOk(c, s, i);
    }
    if c.plan != [] { SumShrinks(Terms(c, s), seq(|c.plan|, i => 0), 0, 0); }
    SumBounds(seq(|c.plan|, i => 0), 0, 0);
  }

  /** A chunk is given up exactly when its 32nd proxied attempt has failed; a waiting chunk
      has had fewer, and lacks at least one byte, so the range it asks for next is not empty. */
  lemma GivenUpExactly(c: Config, s: State, i: nat)
    requires Reachable(c, s) && i < |c.plan|
    ensures s.place[i].Lost? <==> s.proxied[i] == 32 && !s.place[i].Held? && !s.place[i].Done?
    ensures Waits(s, i) ==> s.proxied[i] < 32 && Size(s.parts[i]) < c.Want(i)
    ensures forall k :: 0 <= k < |s.queue| ==> |s.queue[k].tried| < 32
    ensures Sum(s.proxied) <= 32 * |c.plan|
  {
    ReachableInv(c, s);
    assert ChunkOk(c, s, i);
    forall k | 0 <= k < |s.queue|
      ensures |s.queue[k].tried| < MAX_PROXIES
    {
      assert ChunkOk(c, s, s.queue[k].id);
    }
    forall j | 0 <= j < |s.proxied|
      ensures 0 <= s.proxied[j] <= MAX_PROXIES
    {
      assert ChunkOk(c, s, j);
    }
    SumBounds(s.proxied, 0, MAX_PROXIES);
  }
}
