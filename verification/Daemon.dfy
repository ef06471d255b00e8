/** The daemon's connections as the program keeps them (src/proxchunkd.cpp:68-74, 396-552). Each
    method is shown to take exactly the steps of the lease state machine. */
module Daemon {
  import opened Wrappers
  import opened Counting
  import opened ProxyPool
  import opened PoolProperties
  import opened Protocol
  import opened LeaseSystem
  import Client

  datatype CmdResult = Ok | CloseConn | StopDaemon

  /** The system w with this pool, this connection at cid, and this poll thread. */
  function View(w: Sys, cid: nat, rows: seq<Row>, filter: bool, c: Conn, poll: Poll, verdict: Option<set<Address>>): Sys
    requires cid < |w.conns|
  {
    w.(rows := rows, filter := filter, conns := w.conns[cid := c], poll := poll, verdict := verdict)
  }

  /** The held addresses are released one after the other. */
  ghost predicate ReleaseRun(states: seq<Sys>) {
    states != [] && forall j :: 0 <= j < |states| - 1 ==> Next(states[j], ReleaseNext, states[j + 1])
  }

  /** The whole of drop_conn: release all, then close. */
  ghost predicate Drops(s: Sys, t: Sys) {
    exists states :: ReleaseRun(states) && states[0] == s && Next(states[|states| - 1], Close, t)
  }

  /** The whole of handle_line for a request: its first critical section, and what follows it. */
  ghost predicate Handles(s: Sys, cid: nat, request: Request, written: bool, passed: map<Address, real>, t: Sys) {
    exists got, m :: HandlesVia(s, cid, request, got, m, written, passed, t)
  }

  ghost predicate HandlesVia(s: Sys, cid: nat, request: Request, got: Option<Row>, m: Sys, written: bool,
                             passed: map<Address, real>, t: Sys) {
    && OnLine(s, cid, request, got, m)
    && match m.poll
       case Granted(_, _) => Next(m, Enter(written), t)
       case Freed(_, _) => Next(m, Erase, t)
       case Testing(_, _) => Next(m, TargetDone(passed), t)
       case _ => t == m
  }

  /** pools[k] is the pool after releasing urls[..k]. */
  ghost predicate ReleasedInTurn(pools: seq<seq<Row>>, urls: seq<Address>, k: nat) {
    && k <= |urls| && |pools| == k + 1
    && forall j :: 0 <= j < k ==> Released(pools[j], urls[j], false, 0.0, pools[j + 1])
  }

  lemma OneTurn(m: Sys, cid: nat, k: nat, after: seq<Row>, n: Sys)
    requires cid < |m.conns| && k < |m.conns[cid].held| && m.poll == Dropping(cid, k)
    requires Released(m.rows, m.conns[cid].held[k], false, 0.0, after)
    requires n == m.(rows := after, poll := Dropping(cid, k + 1))
    ensures Next(m, ReleaseNext, n)
  {
  }

  /** The system after k of the releases. */
  function AfterTurns(s: Sys, cid: nat, pools: seq<seq<Row>>, k: nat): Sys
    requires k < |pools|
  {
    s.(rows := pools[k], poll := Dropping(cid, k))
  }

  lemma TurnsAreSteps(s: Sys, cid: nat, pools: seq<seq<Row>>, n: nat) returns (states: seq<Sys>)
    requires cid < |s.conns| && |s.conns[cid].held| == n && ReleasedInTurn(pools, s.conns[cid].held, n)
    ensures ReleaseRun(states) && |states| == n + 1
    ensures states[0] == AfterTurns(s, cid, pools, 0) && states[n] == AfterTurns(s, cid, pools, n)
  {
    states := seq(n + 1, k requires 0 <= k <= n => AfterTurns(s, cid, pools, k));
    forall j | 0 <= j < n
      ensures Next(states[j], ReleaseNext, states[j + 1])
    {
      OneTurn(states[j], cid, j, pools[j + 1], states[j + 1]);
    }
  }

  /** Releasing everything in turn and closing the connection. */
  lemma CloseAfterAll(w: Sys, cid: nat, pools: seq<seq<Row>>, filter: bool, c: Conn, verdict: Option<set<Address>>)
    requires cid < |w.conns| && ReleasedInTurn(pools, c.held, |c.held|)
    ensures Drops(View(w, cid, pools[0], filter, c, Dropping(cid, 0), verdict),
                  View(w, cid, pools[|c.held|], filter, c.(open := false, held := []), Idle, verdict))
  {
    var n := |c.held|;
    var s := View(w, cid, pools[0], filter, c, Dropping(cid, 0), verdict);
    var states := TurnsAreSteps(s, cid, pools, n);
    var t := View(w, cid, pools[n], filter, c.(open := false, held := []), Idle, verdict);
    assert t.conns == states[n].conns[cid := t.conns[cid]];
    assert Next(states[n], Close, t);
  }

  lemma NothingAcquired(w: Sys, cid: nat, rows: seq<Row>, filter: bool, c: Conn, skip: seq<string>, after: seq<Row>,
                        written: bool, passed: map<Address, real>)
    requires cid < |w.conns| && c.open && c.greeted && !w.stopping && Acquired(rows, filter, skip, after, None)
    ensures Handles(View(w, cid, rows, filter, c, Idle, w.verdict), cid, Acquire(skip), written, passed,
                    View(w, cid, after, filter, c, Idle, w.verdict))
  {
    var s := View(w, cid, rows, filter, c, Idle, w.verdict);
    var t := View(w, cid, after, filter, c, Idle, w.verdict);
    assert HandlesVia(s, cid, Acquire(skip), None, t, written, passed, t);
  }

  lemma AcquireHandled(w: Sys, cid: nat, rows: seq<Row>, filter: bool, c: Conn, skip: seq<string>, after: seq<Row>,
                       r: Row, written: bool, passed: map<Address, real>)
    requires cid < |w.conns| && c.open && c.greeted && !w.stopping && Acquired(rows, filter, skip, after, Some(r))
    ensures Handles(View(w, cid, rows, filter, c, Idle, w.verdict), cid, Acquire(skip), written, passed,
                    View(w, cid, after, filter, c.(held := c.held + [r.address]),
                         if written then Idle else Dropping(cid, 0), w.verdict))
  {
    var s := View(w, cid, rows, filter, c, Idle, w.verdict);
    var m := View(w, cid, after, filter, c, Granted(cid, r.address), w.verdict);
    var t := View(w, cid, after, filter, c.(held := c.held + [r.address]),
                  if written then Idle else Dropping(cid, 0), w.verdict);
    assert t.conns == m.conns[cid := t.conns[cid]];
    assert Next(m, Enter(written), t);
    assert HandlesVia(s, cid, Acquire(skip), Some(r), m, written, passed, t);
  }

  lemma ReleaseHandled(w: Sys, cid: nat, rows: seq<Row>, filter: bool, c: Conn, url: string, ok: bool, mbps: real,
                       after: seq<Row>, written: bool, passed: map<Address, real>)
    requires cid < |w.conns| && c.open && c.greeted && Released(rows, url, ok, mbps, after)
    ensures Handles(View(w, cid, rows, filter, c, Idle, w.verdict), cid, Release(url, ok, mbps), written, passed,
                    View(w, cid, after, filter, c.(held := EraseFirst(c.held, url)), Idle, w.verdict))
  {
    var s := View(w, cid, rows, filter, c, Idle, w.verdict);
    var m := View(w, cid, after, filter, c, Freed(cid, url), w.verdict);
    var t := View(w, cid, after, filter, c.(held := EraseFirst(c.held, url)), Idle, w.verdict);
    assert t.conns == m.conns[cid := t.conns[cid]];
    assert Next(m, Erase, t);
    assert HandlesVia(s, cid, Release(url, ok, mbps), None, m, written, passed, t);
  }

  lemma TargetHandled(w: Sys, cid: nat, rows: seq<Row>, filter: bool, c: Conn, url: string, after: seq<Row>,
                      written: bool, passed: map<Address, real>)
    requires cid < |w.conns| && c.open && c.greeted && url != ""
    requires passed.Keys <= Addresses(rows) && forall a :: a in passed ==> passed[a] > 0.0
    requires SortedFrom(TargetRows(TargetStarted(rows), passed), after)
    ensures Handles(View(w, cid, rows, filter, c, Idle, w.verdict), cid, Target(url), written, passed,
                    View(w, cid, after, true, c, Idle, Some(passed.Keys)))
  {
    var s := View(w, cid, rows, filter, c, Idle, w.verdict);
    var m := View(w, cid, TargetStarted(rows), true, c, Testing(cid, Addresses(rows)), Some({}));
    var t := View(w, cid, after, true, c, Idle, Some(passed.Keys));
    assert Next(m, TargetDone(passed), t);
    assert HandlesVia(s, cid, Target(url), None, m, written, passed, t);
  }

  /** The requests that lease and release nothing. */
  lemma PlainHandled(w: Sys, cid: nat, rows: seq<Row>, filter: bool, c: Conn, request: Request, written: bool,
                     passed: map<Address, real>)
    requires cid < |w.conns| && c.open && Admitted(c.greeted, request)
    requires !request.Release? && (request.Target? ==> request.url == "") && (request.Acquire? ==> w.stopping)
    ensures Handles(View(w, cid, rows, filter, c, Idle, w.verdict), cid, request, written, passed,
                    View(w, cid, rows, filter, if request.Hello? then c.(greeted := true) else c,
                         if request.Malformed? then Dropping(cid, 0) else Idle, w.verdict))
  {
    var s := View(w, cid, rows, filter, c, Idle, w.verdict);
    var t := View(w, cid, rows, filter, if request.Hello? then c.(greeted := true) else c,
                  if request.Malformed? then Dropping(cid, 0) else Idle, w.verdict);
    assert t.conns == s.conns[cid := t.conns[cid]];
    assert HandlesVia(s, cid, request, None, t, written, passed, t);
  }

  /** The greatest speed in the pool, if it is sorted, and 0 if it is empty. */
  predicate TopOf(rows: seq<Row>, top: real) {
    && (rows == [] ==> top == 0.0)
    && (rows != [] && Sorted(rows) ==>
          (exists i :: 0 <= i < |rows| && rows[i].speed == top) && forall i :: 0 <= i < |rows| ==> rows[i].speed <= top)
  }

  /** The result of a request, and what its answer says of the daemon. */
  ghost predicate Results(request: Request, result: CmdResult, reply: Reply, stopping: bool, passed: map<Address, real>,
                          written: bool, rows: seq<Row>, filter: bool)
  {
    && (result == StopDaemon <==> request.Stop?)
    && (result == CloseConn <==> request.Malformed? || (reply.Lease? && !written))
    && (request.Acquire? ==> (reply == ShuttingDown <==> stopping))
    && (request.Target? ==> reply == Reached(if request.url == "" then 0 else |passed|))
    && (reply.Statistics? ==>
          && reply.busy == Count(IsBusy, rows) && reply.live == Count(LiveTest(filter), rows) && TopOf(rows, reply.top))
  }

  /** The two ends' records of a connection agree on what the daemon has done. */
  predicate Mirrors(l: Client.Link, c: Conn) {
    l.open == c.open && l.held == c.held && (!c.open ==> c.held == [])
  }

  lemma HandledIsTurn(l: Client.Link, c: Conn, reply: Reply, number: string, written: bool, d: Conn)
    requires Mirrors(l, c) && c.open && l.handled < |l.requests| && Fits(l.requests[l.handled], reply)
    requires var request := l.requests[l.handled];
             if request.Malformed? || (reply.Lease? && !written) then !d.open && d.held == []
             else d.open && d.held == HeldAfter(c.held, request, reply)
    ensures Mirrors(Client.Turned(l, Client.Handles(reply, number, written)), d)
  {
  }

  /** drop_conn is the turn in which the daemon hangs up. */
  lemma DroppedIsTurn(l: Client.Link, c: Conn, farewell: bool)
    requires Mirrors(l, c)
    ensures Mirrors(Client.Turned(l, Client.HangsUp(farewell)), c.(open := false, held := []))
  {
  }

  lemma EraseFrom(held: seq<Address>, url: Address, i: nat)
    requires i < |held|
    ensures held[..i] + EraseFirst(held[i..], url)
         == if held[i] == url then held[..i] + held[i + 1..] else held[..i + 1] + EraseFirst(held[i + 1..], url)
  {
    assert held[i..][1..] == held[i + 1..];
    assert held[..i] + [held[i]] == held[..i + 1];
  }

  /** One accepted connection. */
  class Connection {
    var open: bool
    var greeted: bool
    var held: seq<Address>

    constructor ()
      ensures open && !greeted && held == []
    {
      open, greeted, held := true, false, [];
    }

    function Value(): Conn
      reads this
    {
      Conn(open, greeted, held)
    }

    method EraseOneHeld(url: Address)
      modifies this`held
      ensures held == EraseFirst(old(held), url)
    {
      var i := 0;
      assert held[0..] == held;
      while i < |held|
        invariant 0 <= i <= |held| && held == old(held)
        invariant EraseFirst(held, url) == held[..i] + EraseFirst(held[i..], url)
      {
        EraseFrom(held, url, i);
        if held[i] == url {
          held := held[..i] + held[i + 1..];
          return;
        }
        i := i + 1;
      }
      assert held[..i] == held && held[i..] == [];
    }

    /** Release everything the connection holds, one after the other. */
    method ReleaseAll(engine: ProxyEngine) returns (ghost pools: seq<seq<Row>>)
      modifies engine`pool
      ensures ReleasedInTurn(pools, held, |held|) && pools[0] == old(engine.pool) && pools[|held|] == engine.pool
    {
      pools := [engine.pool];
      var i := 0;
      while i < |held|
        invariant 0 <= i <= |held|
        invariant ReleasedInTurn(pools, held, i) && pools[0] == old(engine.pool) && pools[i] == engine.pool
      {
        engine.Release(held[i], false, 0.0);
        pools := pools + [engine.pool];
        i := i + 1;
      }
    }

    /** Release everything the connection holds, and close it. */
    method DropConn(engine: ProxyEngine, ghost w: Sys, ghost cid: nat, ghost verdict: Option<set<Address>>)
      requires open && cid < |w.conns|
      modifies this, engine`pool
      ensures Drops(View(w, cid, old(engine.pool), engine.filter, old(Value()), Dropping(cid, 0), verdict),
                    View(w, cid, engine.pool, engine.filter, Value(), Idle, verdict))
      ensures held == [] && !open
    {
      ghost var c := Value();
      ghost var pools := ReleaseAll(engine);
      held := [];
      open := false;
      CloseAfterAll(w, cid, pools, engine.filter, c, verdict);
    }

    method HandleAcquire(skip: seq<string>, engine: ProxyEngine, stopping: bool, ghost passed: map<Address, real>,
                         written: bool, ghost w: Sys, ghost cid: nat)
      returns (result: CmdResult, reply: Reply)
      requires open && greeted && cid < |w.conns| && stopping == w.stopping
      modifies this`held, engine`pool
      ensures Handles(View(w, cid, old(engine.pool), engine.filter, old(Value()), Idle, w.verdict), cid,
                      Acquire(skip), written, passed,
                      View(w, cid, engine.pool, engine.filter, Value(),
                           if result == CloseConn then Dropping(cid, 0) else Idle, w.verdict))
      ensures Fits(Acquire(skip), reply) && held == HeldAfter(old(held), Acquire(skip), reply)
      ensures result == (if reply.Lease? && !written then CloseConn else Ok) && (reply == ShuttingDown <==> stopping)
    {
      ghost var rows, c := engine.pool, Value();
      if stopping {
        PlainHandled(w, cid, rows, engine.filter, c, Acquire(skip), written, passed);
        return Ok, ShuttingDown;
      }
      var got := engine.Acquire(skip);
      if got.None? {
        NothingAcquired(w, cid, rows, engine.filter, c, skip, engine.pool, written, passed);
        return Ok, Empty;
      }
      held := held + [got.value.address];
      AcquireHandled(w, cid, rows, engine.filter, c, skip, engine.pool, got.value, written, passed);
      return if written then Ok else CloseConn, Lease(got.value.address);
    }

    method HandleRelease(url: string, ok: bool, mbps: real, engine: ProxyEngine, ghost passed: map<Address, real>,
                         ghost written: bool, ghost w: Sys, ghost cid: nat)
      requires open && greeted && cid < |w.conns|
      modifies this`held, engine`pool
      ensures Handles(View(w, cid, old(engine.pool), engine.filter, old(Value()), Idle, w.verdict), cid,
                      Release(url, ok, mbps), written, passed,
                      View(w, cid, engine.pool, engine.filter, Value(), Idle, w.verdict))
      ensures held == EraseFirst(old(held), url)
    {
      ghost var rows, c := engine.pool, Value();
      engine.Release(url, ok, mbps);
      EraseOneHeld(url);
      ReleaseHandled(w, cid, rows, engine.filter, c, url, ok, mbps, engine.pool, written, passed);
    }

    method HandleTarget(url: string, engine: ProxyEngine, passed: map<Address, real>, ghost written: bool,
                        ghost w: Sys, ghost cid: nat)
      returns (reply: Reply, ghost verdict: Option<set<Address>>)
      requires open && greeted && cid < |w.conns|
      requires passed.Keys <= Addresses(engine.pool) && forall a :: a in passed ==> passed[a] > 0.0
      modifies engine
      ensures Handles(View(w, cid, old(engine.pool), old(engine.filter), Value(), Idle, w.verdict), cid,
                      Target(url), written, passed,
                      View(w, cid, engine.pool, engine.filter, Value(), Idle, verdict))
      ensures reply == Reached(if url == "" then 0 else |passed|)
    {
      ghost var rows, filter := engine.pool, engine.filter;
      if url == "" {
        PlainHandled(w, cid, rows, filter, Value(), Target(url), written, passed);
        return Reached(0), w.verdict;
      }
      var asked := engine.BeginTarget();
      var n := engine.EndTarget(passed);
      TargetHandled(w, cid, rows, filter, Value(), url, engine.pool, written, passed);
      return Reached(n), Some(passed.Keys);
    }

    /** What handle_line does for a request. */
    method HandleRequest(request: Request, engine: ProxyEngine, stopping: bool, passed: map<Address, real>, written: bool,
                         ghost w: Sys, ghost cid: nat)
      returns (result: CmdResult, reply: Reply, ghost verdict: Option<set<Address>>)
      requires open && cid < |w.conns| && stopping == w.stopping && Admitted(greeted, request)
      requires forall a :: a in passed ==> passed[a] > 0.0
      requires passed.Keys <= Addresses(engine.pool)
      modifies this, engine
      ensures Handles(View(w, cid, old(engine.pool), old(engine.filter), old(Value()), Idle, w.verdict), cid,
                      request, written, passed,
                      View(w, cid, engine.pool, engine.filter, Value(),
                           if result == CloseConn then Dropping(cid, 0) else Idle, verdict))
      ensures open && Fits(request, reply) && held == HeldAfter(old(held), request, reply)
      ensures greeted == (old(greeted) || request.Hello?)
      ensures Results(request, result, reply, stopping, passed, written, engine.pool, engine.filter)
      ensures request.Malformed? || request.Hello? || request.Nothing? ==>
                engine.pool == old(engine.pool) && engine.filter == old(engine.filter)
    {
      verdict := w.verdict;
      match request {
        case Acquire(skip) =>
          result, reply := HandleAcquire(skip, engine, stopping, passed, written, w, cid);
        case Release(url, ok, mbps) =>
          HandleRelease(url, ok, mbps, engine, passed, written, w, cid);
          result, reply := Ok, Done;
        case Target(url) =>
          reply, verdict := HandleTarget(url, engine, passed, written, w, cid);
          result := Ok;
        case _ =>
          result, reply := HandlePlain(request, engine, passed, written, w, cid);
      }
    }

    /** handle_line. The environment supplies what std::stod and a target test return, and
        whether the answer to ACQUIRE can be written. */
    method HandleLine(line: string, number: Number, engine: ProxyEngine, stopping: bool,
                      passed: map<Address, real>, written: bool, ghost w: Sys, ghost cid: nat)
      returns (result: CmdResult, reply: Reply, ghost verdict: Option<set<Address>>)
      requires open && cid < |w.conns| && stopping == w.stopping
      requires forall a :: a in passed ==> passed[a] > 0.0
      requires passed.Keys <= Addresses(engine.pool)
      modifies this, engine
      ensures var request := Parse(Split(line), old(greeted), number);
              && Handles(View(w, cid, old(engine.pool), old(engine.filter), old(Value()), Idle, w.verdict), cid,
                         request, written, passed,
                         View(w, cid, engine.pool, engine.filter, Value(),
                              if result == CloseConn then Dropping(cid, 0) else Idle, verdict))
              && open && Fits(request, reply) && held == HeldAfter(old(held), request, reply)
              && Results(request, result, reply, stopping, passed, written, engine.pool, engine.filter)
      // before HELLO any line of other words is an error; and an error changes nothing and closes
      ensures Split(line) != [] ==> AnsweredByWords(Split(line), old(greeted), number, reply)
      ensures greeted == (old(greeted) || reply == Greeting) && (reply == ProtocolError ==> result == CloseConn)
      ensures reply == ProtocolError || reply == Greeting || reply == Silence ==>
                engine.pool == old(engine.pool) && engine.filter == old(engine.filter) && held == old(held)
    {
      var tok := IpcSplit(line);
      if tok != [] { RequestsExactly(tok, greeted, number); }
      ghost var before := greeted;
      result, reply, verdict :=
        HandleRequest(Parse(tok, greeted, number), engine, stopping, passed, written, w, cid);
      if tok != [] { FitsWords(tok, before, number, reply); }
    }

    method HandlePlain(request: Request, engine: ProxyEngine, ghost passed: map<Address, real>, ghost written: bool,
                       ghost w: Sys, ghost cid: nat)
      returns (result: CmdResult, reply: Reply)
      requires open && cid < |w.conns| && Admitted(greeted, request)
      requires !request.Acquire? && !request.Release? && !request.Target?
      modifies this`greeted
      ensures Handles(View(w, cid, engine.pool, engine.filter, old(Value()), Idle, w.verdict), cid, request, written, passed,
                      View(w, cid, engine.pool, engine.filter, Value(),
                           if result == CloseConn then Dropping(cid, 0) else Idle, w.verdict))
      ensures greeted == (request.Hello? || old(greeted)) && Fits(request, reply)
      ensures result == if request.Malformed? then CloseConn else if request.Stop? then StopDaemon else Ok
      ensures reply.Statistics? ==>
                && reply.busy == Count(IsBusy, engine.pool) && reply.live == Count(LiveTest(engine.filter), engine.pool)
                && TopOf(engine.pool, reply.top)
    {
      ghost var c := Value();
      result, reply := AnswerPlain(request, engine);
      PlainHandled(w, cid, engine.pool, engine.filter, c, request, written, passed);
    }

    /** The commands that touch no lease. */
    method AnswerPlain(request: Request, engine: ProxyEngine) returns (result: CmdResult, reply: Reply)
      requires !request.Acquire? && !request.Release? && !request.Target?
      modifies this`greeted
      ensures greeted == (request.Hello? || old(greeted)) && Fits(request, reply)
      ensures reply.Statistics? ==> TopOf(engine.pool, reply.top)
      ensures result == if request.Malformed? then CloseConn else if request.Stop? then StopDaemon else Ok
      ensures reply.Statistics? ==>
                reply.busy == Count(IsBusy, engine.pool) && reply.live == Count(LiveTest(engine.filter), engine.pool)
    {
      match request
      case Stats =>
        var live := engine.Live();
        var busy := engine.Busy();
        var top := engine.TopMbps();
        return Ok, Statistics(live, busy, top);
      case Hello =>
        greeted := true;
        return Ok, Greeting;
      case Nothing => return Ok, Silence;
      case Ping => return Ok, Pong;
      case Stop => return StopDaemon, Stopping;
      case Malformed => return CloseConn, ProtocolError;
      case Unknown => return Ok, UnknownCommand;
    }

    /** The daemon's loop body for a line: handle it, and drop the connection if that says so. What
        that does to the connection is exactly a turn of the link to the client. */
    method ServeLine(line: string, number: Number, engine: ProxyEngine, stopping: bool, passed: map<Address, real>,
                     written: bool, digits: string, ghost l: Client.Link, ghost w: Sys, ghost cid: nat)
      returns (stop: bool, reply: Reply, ghost m: Client.Link)
      requires Mirrors(l, Value()) && open && l.handled < |l.requests| && cid < |w.conns| && w.stopping == stopping
      requires l.requests[l.handled] == Parse(Split(line), greeted, number)
      requires forall a :: a in passed ==> passed[a] > 0.0
      requires passed.Keys <= Addresses(engine.pool)
      modifies this, engine
      ensures m == Client.Turned(l, Client.Handles(reply, digits, written)) && m.handled == l.handled + 1
      ensures Mirrors(m, Value())
      ensures stop <==> l.requests[l.handled].Stop?
    {
      ghost var c := Value();
      ghost var verdict: Option<set<Address>>;
      var result;
      result, reply, verdict := HandleLine(line, number, engine, stopping, passed, written, w, cid);
      if result == CloseConn {
        DropConn(engine, w, cid, verdict);
      }
      stop := result == StopDaemon;
      HandledIsTurn(l, c, reply, digits, written, Value());
      m := Client.Turned(l, Client.Handles(reply, digits, written));
    }
  }
}
