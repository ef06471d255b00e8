/** The workers of a download as the callers of the daemon client (src/proxchunk.cpp:673-724): what
    they ask it for, and that they give back only what it gave them. */
module Callers {
  import opened Wrappers
  import opened Counting
  import opened Download
  import opened DownloadInvariant
  import opened DownloadRuns
  import LeaseSystem
  import Protocol
  import Client
  import Agreement

  /** What an action tells the client: a lease was got from acquire, or one is passed to release. */
  datatype Call = Got(url: Url) | Gave(url: Url) | NoCall

  /** drop_pipe releases the worker's lease, if it has one. */
  function Dropping(x: Worker): Call { if x.pipe.Some? then Gave(x.pipe.value) else NoCall }

  function WorkCall(s: State, w: nat, op: Op): Call
    requires w < |s.workers|
  {
    var x := s.workers[w];
    match op
    case Peek => if x.pc.Top? && s.queue == [] && s.inflight == 0 then Dropping(x) else NoCall
    case TryOpen => if x.pc.Opening? then Dropping(x) else NoCall
    case Ask(granted) => if x.pc.Asking? && granted.Some? then Got(granted.value) else NoCall
    case InitHandle(created) => if x.pc.ProxyInit? && !created then Gave(x.pc.url) else NoCall
    case Claim => if x.pc.Ready? && s.queue == [] then Dropping(x) else NoCall
    case Drop => if x.pc.Counted? || (x.pc.Judged? && !x.pc.ok) then Dropping(x) else NoCall
    case _ => NoCall
  }

  function CallOf(s: State, a: Action): Call {
    if a.Work? && a.w < |s.workers| then WorkCall(s, a.w, a.op) else NoCall
  }

  /** The leases after a call. */
  function Called(leases: multiset<Url>, call: Call): multiset<Url> {
    match call
    case Got(url) => leases + multiset{url}
    case Gave(url) => leases - multiset{url}
    case NoCall => leases
  }

  lemma DropPipeCalls(c: Config, s: State, w: nat, pc: Pc)
    requires w < |s.workers|
    ensures DropPipe(c, s, w, pc).leases == Called(s.leases, Dropping(s.workers[w]))
  {
  }

  lemma PipeCalls(c: Config, s: State, w: nat, op: Op)
    requires Shaped(c, s) && w < |s.workers| && WorkStep(c, s, w, op).Some?
    requires op.Peek? || op.TryOpen? || op.Claim?
    ensures WorkStep(c, s, w, op).value.leases == Called(s.leases, WorkCall(s, w, op))
  {
    DropPipeCalls(c, s, w, if op.Peek? then Exited else if op.TryOpen? then Opening else Top);
  }

  lemma DropCalls(c: Config, s: State, w: nat)
    requires w < |s.workers| && DoDrop(c, s, w).Some?
    ensures DoDrop(c, s, w).value.leases == Called(s.leases, WorkCall(s, w, Drop))
  {
    match s.workers[w].pc
    case Counted => DropPipeCalls(c, s, w, Leaving);
    case Judged(job, ok) => DropPipeCalls(c, s, w, Dropped(job));
    case _ =>
  }

  lemma HandleCalls(c: Config, s: State, w: nat, op: Op)
    requires Shaped(c, s) && w < |s.workers| && WorkStep(c, s, w, op).Some?
    requires op.Ask? || op.InitHandle?
    ensures WorkStep(c, s, w, op).value.leases == Called(s.leases, WorkCall(s, w, op))
  {
  }

  lemma TransferCalls(c: Config, s: State, w: nat, op: Op)
    requires Shaped(c, s) && w < |s.workers| && WorkStep(c, s, w, op).Some?
    requires op.Begin? || op.Receive? || op.End? || op.Tally? || op.Decide? || op.Leave?
    ensures WorkStep(c, s, w, op).value.leases == s.leases
  {
  }

  lemma GivesWhatItHas(c: Config, s: State, a: Action, url: Url)
    requires Inv(c, s) && CallOf(s, a) == Gave(url)
    ensures s.leases[url] > 0
  {
    assert LeaseUrl(s.workers[a.w]) == Some(url) by { assert WorkerOk(c, s, a.w); }
    CountBounds(Leases(url), s.workers);
    assert Leases(url)(s.workers[a.w]);
  }

  /** What the callers have, in the terms of `Agreement`: `lent` of their client after the call. */
  function LentAfter(lent: seq<Url>, call: Call): seq<Url> {
    match call
    case Got(url) => lent + [url]
    case Gave(url) => LeaseSystem.EraseFirst(lent, url)
    case NoCall => lent
  }

  /** These are the changes that an acquire with a lease and a release make there. */
  lemma LentAsInAgreement(p: Agreement.Peer, call: Call, ok: bool, mbps: real, written: bool)
    ensures call.Gave? ==>
              Agreement.AfterAsk(p, Protocol.Request.Release(call.url, ok, mbps), written).lent == LentAfter(p.lent, call)
    ensures call.Got? ==>
              forall got, skip :: Client.LeaseOf(got) == Some(call.url) ==>
                var q := p.(asked := Some(Protocol.Request.Acquire(skip)));
                Agreement.AfterTake(q, got).lent == LentAfter(p.lent, call)
  {
  }

  /** If the callers have the client's leases, a step of a worker gives back only what they have, and
      they have the client's leases again. */
  lemma StepIsProper(c: Config, s: State, a: Action, t: State, lent: seq<Url>)
    requires Inv(c, s) && Step(c, s, a) == Some(t) && multiset(lent) == s.leases
    ensures var call := CallOf(s, a);
            (call.Gave? ==> call.url in lent) && multiset(LentAfter(lent, call)) == t.leases == Called(s.leases, call)
  {
    var call := CallOf(s, a);
    if a.Work? {
      if a.op.Peek? || a.op.TryOpen? || a.op.Claim? {
        PipeCalls(c, s, a.w, a.op);
      } else if a.op.Drop? {
        DropCalls(c, s, a.w);
      } else if a.op.Ask? || a.op.InitHandle? {
        HandleCalls(c, s, a.w, a.op);
      } else {
        TransferCalls(c, s, a.w, a.op);
      }
    }
    if call.Gave? {
      GivesWhatItHas(c, s, a, call.url);
      forall url
        ensures multiset(LentAfter(lent, call))[url] == t.leases[url]
      {
        LeaseSystem.EraseFirstCount(lent, call.url, url);
      }
    }
  }

  /** Along the run, every lease that is given back is one that the callers have. */
  ghost predicate ProperCalls(c: Config, s: State, actions: seq<Action>, lent: seq<Url>)
    requires Inv(c, s)
    decreases |actions|
  {
    actions == [] ||
    var next, call := Step(c, s, actions[0]), CallOf(s, actions[0]);
    next.Some? && (call.Gave? ==> call.url in lent)
    && (StepKeepsInv(c, s, actions[0]); ProperCalls(c, next.value, actions[1..], LentAfter(lent, call)))
  }

  /** What the callers have at the end of the run. */
  ghost function LentBy(c: Config, s: State, actions: seq<Action>, lent: seq<Url>): seq<Url>
    requires Inv(c, s) && Run(c, s, actions).Some?
    decreases |actions|
  {
    if actions == [] then lent
    else
      StepKeepsInv(c, s, actions[0]);
      LentBy(c, Step(c, s, actions[0]).value, actions[1..], LentAfter(lent, CallOf(s, actions[0])))
  }

  lemma {:induction false} RunIsProper(c: Config, s: State, actions: seq<Action>, lent: seq<Url>)
    requires Inv(c, s) && Run(c, s, actions).Some? && multiset(lent) == s.leases
    ensures ProperCalls(c, s, actions, lent)
    ensures multiset(LentBy(c, s, actions, lent)) == Run(c, s, actions).value.leases
    decreases |actions|
  {
    if actions != [] {
      var a := actions[0];
      var t := Step(c, s, a).value;
      StepIsProper(c, s, a, t, lent);
      StepKeepsInv(c, s, a);
      RunIsProper(c, t, actions[1..], LentAfter(lent, CallOf(s, a)));
    }
  }

  /** The workers of every download are proper callers: in every interleaving they give back only
      what acquire gave them and they still have, and once they have returned they have nothing. */
  lemma WorkersAreProper(c: Config, workers: nat, actions: seq<Action>)
    requires c.Valid() && RunDownload(c, workers, actions).Some?
    ensures Inv(c, Start(c, workers)) && ProperCalls(c, Start(c, workers), actions, [])
    ensures var t := RunDownload(c, workers, actions).value;
            (forall w :: 0 <= w < |t.workers| ==> t.workers[w].pc.Exited?) ==> LentBy(c, Start(c, workers), actions, []) == []
  {
    StartInv(c, workers);
    RunIsProper(c, Start(c, workers), actions, []);
    var t := RunDownload(c, workers, actions).value;
    LeasesAreReturned(c, t);
    var lent := LentBy(c, Start(c, workers), actions, []);
    assert |multiset(lent)| == |lent|;
  }
}
