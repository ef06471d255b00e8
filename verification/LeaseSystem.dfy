/** The daemon's leases as a state machine (src/proxchunkd.cpp:396-552, 714-896).

    The poll thread handles one connection at a time; the refresh thread may install a newly
    scored list between any two of its critical sections. One action is one critical section of
    the pool, or what the poll thread does to a connection between two of them. */
module LeaseSystem {
  import opened Wrappers
  import opened Counting
  import opened ProxyPool
  import opened PoolProperties
  import opened Protocol

  datatype Conn = Conn(open: bool, greeted: bool, held: seq<Address>)

  /** What the poll thread is in the middle of. */
  datatype Poll =
    | Idle
    | Granted(cid: nat, url: Address)          // acquire returned a row, not yet entered in held
    | Freed(cid: nat, url: Address)            // release returned, held not yet updated
    | Dropping(cid: nat, done: nat)            // drop_conn has released held[..done]
    | Testing(cid: nat, asked: set<Address>)   // verify_target is running its transfers

  /** `verdict` is history: the addresses that passed the last target test, as long as no list
      was installed since. */
  datatype Sys = Sys(
    rows: seq<Row>,
    filter: bool,
    maxKeep: nat,
    conns: seq<Conn>,
    poll: Poll,
    stopping: bool,
    verdict: Option<set<Address>>)

  datatype Action =
    | Accept
    | Line(cid: nat, request: Request, got: Option<Row>)
    | Enter(written: bool)
    | Erase
    | HangUp(cid: nat)
    | ReleaseNext
    | Close
    | TargetDone(passed: map<Address, real>)
    | Install(tested: seq<Row>)
    | BeginStop

  /** erase_one_held: the first entry equal to url. */
  function EraseFirst(held: seq<Address>, url: Address): seq<Address> {
    if held == [] then []
    else if held[0] == url then held[1..]
    else [held[0]] + EraseFirst(held[1..], url)
  }

  /** A connection's held list once a request has been answered. */
  function HeldAfter(held: seq<Address>, request: Request, reply: Reply): seq<Address> {
    if reply.Lease? then held + [reply.url]
    else if request.Release? then EraseFirst(held, request.url)
    else held
  }

  function SetConn(s: Sys, cid: nat, c: Conn): Sys
    requires cid < |s.conns|
  {
    s.(conns := s.conns[cid := c])
  }

  predicate IsOpen(s: Sys, cid: nat) { cid < |s.conns| && s.conns[cid].open }

  /** handle_line, up to its first critical section. */
  ghost predicate OnLine(s: Sys, cid: nat, request: Request, got: Option<Row>, t: Sys) {
    s.poll.Idle? && IsOpen(s, cid) && Admitted(s.conns[cid].greeted, request) &&
    match request
    case Malformed => t == s.(poll := Dropping(cid, 0))
    case Hello => t == SetConn(s, cid, s.conns[cid].(greeted := true))
    case Target(url) =>
      if url == "" then t == s
      else t == s.(filter := true, rows := TargetStarted(s.rows), verdict := Some({}),
                   poll := Testing(cid, Addresses(s.rows)))
    case Acquire(skip) =>
      if s.stopping then t == s
      else
        && Acquired(s.rows, s.filter, skip, t.rows, got)
        && t == s.(rows := t.rows, poll := if got.Some? then Granted(cid, got.value.address) else Idle)
    case Release(url, ok, mbps) =>
      && Released(s.rows, url, ok, mbps, t.rows)
      && t == s.(rows := t.rows, poll := Freed(cid, url))
    case _ => t == s
  }

  ghost predicate Next(s: Sys, a: Action, t: Sys) {
    match a
    case Accept => !s.stopping && t == s.(conns := s.conns + [Conn(true, false, [])])
    case Line(cid, request, got) => OnLine(s, cid, request, got, t)
    case Enter(written) =>
      && s.poll.Granted? && s.poll.cid < |s.conns|
      && var c := s.conns[s.poll.cid];
         t == SetConn(s, s.poll.cid, c.(held := c.held + [s.poll.url])).(
                poll := if written then Idle else Dropping(s.poll.cid, 0))
    case Erase =>
      && s.poll.Freed? && s.poll.cid < |s.conns|
      && var c := s.conns[s.poll.cid];
         t == SetConn(s, s.poll.cid, c.(held := EraseFirst(c.held, s.poll.url))).(poll := Idle)
    case HangUp(cid) => s.poll.Idle? && IsOpen(s, cid) && t == s.(poll := Dropping(cid, 0))
    case ReleaseNext =>
      && s.poll.Dropping? && s.poll.cid < |s.conns| && s.poll.done < |s.conns[s.poll.cid].held|
      && Released(s.rows, s.conns[s.poll.cid].held[s.poll.done], false, 0.0, t.rows)
      && t == s.(rows := t.rows, poll := Dropping(s.poll.cid, s.poll.done + 1))
    case Close =>
      && s.poll.Dropping? && s.poll.cid < |s.conns| && s.poll.done == |s.conns[s.poll.cid].held|
      && t == SetConn(s, s.poll.cid, s.conns[s.poll.cid].(open := false, held := [])).(poll := Idle)
    case TargetDone(passed) =>
      && s.poll.Testing? && passed.Keys <= s.poll.asked && (forall a :: a in passed ==> passed[a] > 0.0)
      && SortedFrom(TargetRows(s.rows, passed), t.rows)
      && t == s.(rows := t.rows, poll := Idle, verdict := Some(passed.Keys))
    case Install(tested) =>
      && TestedOk(tested) && Installed(s.rows, tested, s.maxKeep, t.rows)
      && t == s.(rows := t.rows, verdict := None)
    case BeginStop => t == s.(stopping := true)
  }

  ghost predicate Starts(s: Sys) {
    s.rows == [] && !s.filter && s.conns == [] && s.poll == Idle && !s.stopping && s.verdict == None
  }

  // ---- claims ----

  function Times(held: seq<Address>, a: Address): nat { multiset(held)[a] }

  /** How often each connection's held list has the address. */
  function HeldCounts(conns: seq<Conn>, a: Address): seq<int> {
    seq(|conns|, i requires 0 <= i < |conns| => Times(conns[i].held, a))
  }

  /** The claims that the poll thread has not entered in, or not yet removed from, a list. */
  function Pending(s: Sys, a: Address): int {
    match s.poll
    case Granted(_, url) => Bit(url == a)
    case Freed(cid, url) => if cid < |s.conns| && url == a && a in s.conns[cid].held then -1 else 0
    case Dropping(cid, done) =>
      if cid < |s.conns| && done <= |s.conns[cid].held| then -(Times(s.conns[cid].held[..done], a) as int) else 0
    case _ => 0
  }

  /** How many holders an address has. */
  function Claims(s: Sys, a: Address): int { Sum(HeldCounts(s.conns, a)) + Pending(s, a) }

  predicate PollOk(s: Sys) {
    && (forall i :: 0 <= i < |s.conns| && !s.conns[i].open ==> s.conns[i].held == [])
    && (!s.poll.Idle? ==> IsOpen(s, s.poll.cid))
    && (s.poll.Dropping? ==> s.poll.done <= |s.conns[s.poll.cid].held|)
    && (s.poll.Testing? ==> s.filter)
  }

  predicate VerdictOk(s: Sys) {
    s.verdict.Some? ==>
      && s.filter
      && (forall i :: 0 <= i < |s.rows| ==> (s.rows[i].targetOk <==> s.rows[i].address in s.verdict.value))
      && (s.poll.Testing? ==> s.poll.asked <= Addresses(s.rows))
  }

  /** Every busy row has a holder. */
  ghost predicate NoLeak(s: Sys) {
    forall a :: a in BusyAddresses(s.rows) ==> Claims(s, a) >= 1
  }

  /** Every busy row has exactly one holder, and every holder's proxy is busy. */
  ghost predicate Exclusive(s: Sys) {
    forall a :: Claims(s, a) == Bit(a in BusyAddresses(s.rows))
  }

  ghost predicate Inv(s: Sys) {
    PoolOk(s.rows) && PollOk(s) && VerdictOk(s) && NoLeak(s)
  }

  /** Clients release only what they hold. */
  predicate Honest(s: Sys, a: Action) {
    a.Line? && a.request.Release? && a.cid < |s.conns| ==> a.request.url in s.conns[a.cid].held
  }

  // ---- how claims move ----

  lemma ClaimsUpdate(s: Sys, cid: nat, c: Conn, a: Address)
    requires cid < |s.conns|
    ensures Sum(HeldCounts(s.conns[cid := c], a))
            == Sum(HeldCounts(s.conns, a)) - Times(s.conns[cid].held, a) + Times(c.held, a)
  {
    assert HeldCounts(s.conns[cid := c], a) == HeldCounts(s.conns, a)[cid := Times(c.held, a)];
    SumUpdate(HeldCounts(s.conns, a), cid, Times(c.held, a));
  }

  /** A connection's own entries are part of the sum. */
  lemma {:induction false} OwnCount(conns: seq<Conn>, cid: nat, a: Address)
    requires cid < |conns|
    ensures Sum(HeldCounts(conns, a)) >= Times(conns[cid].held, a)
  {
    var n := |conns| - 1;
    assert HeldCounts(conns, a)[..n] == HeldCounts(conns[..n], a);
    if cid < n {
      OwnCount(conns[..n], cid, a);
    } else {
      SumNonNegative(HeldCounts(conns[..n], a));
    }
  }

  lemma {:induction false} SumNonNegative(xs: seq<int>)
    requires forall i :: 0 <= i < |xs| ==> xs[i] >= 0
    ensures Sum(xs) >= 0
  {
    if xs != [] { SumNonNegative(xs[..|xs| - 1]); }
  }

  lemma {:induction false} EraseFirstCount(held: seq<Address>, url: Address, a: Address)
    ensures Times(EraseFirst(held, url), a) == Times(held, a) - if url == a && a in held then 1 else 0
  {
    if held != [] {
      assert held == [held[0]] + held[1..];
      if held[0] != url { EraseFirstCount(held[1..], url, a); }
    }
  }

  /** The first entry goes, and the others stay in order. */
  lemma {:induction false} EraseFirstAt(held: seq<Address>, url: Address, i: nat)
    requires i < |held| && held[i] == url && url !in held[..i]
    ensures EraseFirst(held, url) == held[..i] + held[i + 1..]
  {
    if i > 0 {
      assert held[1..][..i - 1] == held[..i][1..];
      assert held[0] == held[..i][0];
      EraseFirstAt(held[1..], url, i - 1);
    }
  }

  /** The step's effect on the leased addresses and on the claims. */
  ghost predicate Moves(s: Sys, t: Sys, url: Address, busy: bool, delta: int) {
    && BusyAddresses(t.rows) == (if busy then BusyAddresses(s.rows) + {url} else BusyAddresses(s.rows) - {url})
    && forall a :: Claims(t, a) == Claims(s, a) + if a == url then delta else 0
  }

  ghost predicate Keeps(s: Sys, t: Sys) {
    BusyAddresses(t.rows) == BusyAddresses(s.rows) && forall a :: Claims(t, a) == Claims(s, a)
  }

  lemma EnteredClaims(s: Sys, written: bool, t: Sys, a: Address)
    requires PollOk(s) && Next(s, Enter(written), t)
    ensures Claims(t, a) == Claims(s, a)
  {
    var cid := s.poll.cid;
    var c := s.conns[cid];
    ClaimsUpdate(s, cid, c.(held := c.held + [s.poll.url]), a);
    assert t.conns[cid].held[..0] == [];
    assert Times(c.held + [s.poll.url], a) == Times(c.held, a) + Bit(s.poll.url == a);
  }

  lemma EnterKeeps(s: Sys, written: bool, t: Sys)
    requires Inv(s) && Next(s, Enter(written), t)
    ensures Keeps(s, t) && PollOk(t) && VerdictOk(t)
  {
    forall a
      ensures Claims(t, a) == Claims(s, a)
    {
      EnteredClaims(s, written, t, a);
    }
  }

  lemma EraseKeeps(s: Sys, t: Sys)
    requires Inv(s) && Next(s, Erase, t)
    ensures Keeps(s, t) && PollOk(t) && VerdictOk(t)
  {
    forall a
      ensures Claims(t, a) == Claims(s, a)
    {
      ClaimsUpdate(s, s.poll.cid, t.conns[s.poll.cid], a);
      EraseFirstCount(s.conns[s.poll.cid].held, s.poll.url, a);
    }
  }

  lemma CloseKeeps(s: Sys, t: Sys)
    requires Inv(s) && Next(s, Close, t)
    ensures Keeps(s, t) && PollOk(t) && VerdictOk(t)
  {
    var held := s.conns[s.poll.cid].held;
    assert held[..|held|] == held;
    forall a
      ensures Claims(t, a) == Claims(s, a)
    {
      ClaimsUpdate(s, s.poll.cid, t.conns[s.poll.cid], a);
    }
  }

  lemma OneMoreDropped(s: Sys, t: Sys)
    requires PollOk(s) && s.poll.Dropping? && s.poll.done < |s.conns[s.poll.cid].held|
    requires t == s.(rows := t.rows, poll := Dropping(s.poll.cid, s.poll.done + 1))
    requires BusyAddresses(t.rows) == BusyAddresses(s.rows) - {s.conns[s.poll.cid].held[s.poll.done]}
    ensures PollOk(t) && Moves(s, t, s.conns[s.poll.cid].held[s.poll.done], false, -1)
  {
    var held, k := s.conns[s.poll.cid].held, s.poll.done;
    assert held[..k + 1] == held[..k] + [held[k]];
  }

  lemma StillClaimed(s: Sys)
    requires PollOk(s) && s.poll.Dropping? && s.poll.done < |s.conns[s.poll.cid].held|
    ensures Claims(s, s.conns[s.poll.cid].held[s.poll.done]) >= 1
  {
    var held, k := s.conns[s.poll.cid].held, s.poll.done;
    assert held == held[..k] + [held[k]] + held[k + 1..];
    OwnCount(s.conns, s.poll.cid, held[k]);
  }

  lemma ReleaseNextMoves(s: Sys, t: Sys)
    requires Inv(s) && Next(s, ReleaseNext, t)
    ensures PoolOk(t.rows) && PollOk(t) && VerdictOk(t)
    ensures var url := s.conns[s.poll.cid].held[s.poll.done];
            Moves(s, t, url, false, -1) && Claims(s, url) >= 1
  {
    var url := s.conns[s.poll.cid].held[s.poll.done];
    ReleaseKeeps(s.rows, url, false, 0.0, t.rows);
    OneMoreDropped(s, t);
    StillClaimed(s);
    VerdictAfterRelease(s, t, url, false, 0.0);
  }

  /** A lease that is dropped with its connection counts as failed. */
  lemma DroppedLeaseFailed(s: Sys, t: Sys)
    requires Inv(s) && Next(s, ReleaseNext, t)
    ensures var url := s.conns[s.poll.cid].held[s.poll.done];
            forall r, q :: r in s.rows && q in t.rows && r.address == q.address == url ==>
              q.fails == r.fails + 1 && 4.0 * q.speed == r.speed
  {
    ReleaseKeeps(s.rows, s.conns[s.poll.cid].held[s.poll.done], false, 0.0, t.rows);
  }

  lemma VerdictAfterRelease(s: Sys, t: Sys, url: Address, ok: bool, mbps: real)
    requires PoolOk(s.rows) && VerdictOk(s) && Released(s.rows, url, ok, mbps, t.rows)
    requires t.filter == s.filter && t.verdict == s.verdict && !t.poll.Testing?
    ensures VerdictOk(t)
  {
    ReleaseKeeps(s.rows, url, ok, mbps, t.rows);
    forall j | 0 <= j < |t.rows| && s.verdict.Some?
      ensures t.rows[j].targetOk <==> t.rows[j].address in s.verdict.value
    {
      assert t.rows[j] in t.rows;
      if t.rows[j].address != url {
        assert t.rows[j] in s.rows;
      } else {
        assert url in Addresses(t.rows);
        var i :| 0 <= i < |s.rows| && s.rows[i].address == url;
        assert s.rows[i] in s.rows;
      }
    }
  }

  lemma AcquireMoves(s: Sys, cid: nat, skip: seq<string>, got: Option<Row>, t: Sys)
    requires Inv(s) && OnLine(s, cid, Acquire(skip), got, t) && !s.stopping
    ensures PoolOk(t.rows) && PollOk(t) && VerdictOk(t)
    ensures got.None? ==> Keeps(s, t)
    ensures got.Some? ==> Moves(s, t, got.value.address, true, 1) && got.value.address !in BusyAddresses(s.rows)
    ensures got.Some? && s.verdict.Some? ==> got.value.address in s.verdict.value
  {
    if got.Some? {
      AcquireKeeps(s.rows, s.filter, skip, t.rows, got.value);
      if s.verdict.Some? {
        var k :| 0 <= k < |s.rows| && s.rows[k] == got.value.(busy := false);
        assert s.rows[k].address in s.verdict.value;
      }
    }
  }

  lemma FreedMoves(s: Sys, cid: nat, url: string, t: Sys)
    requires PollOk(s) && s.poll.Idle? && IsOpen(s, cid)
    requires t == s.(rows := t.rows, poll := Freed(cid, url))
    requires BusyAddresses(t.rows) == BusyAddresses(s.rows) - {url}
    ensures PollOk(t) && Moves(s, t, url, false, if url in s.conns[cid].held then -1 else 0)
  {
  }

  lemma ReleaseMoves(s: Sys, cid: nat, url: string, ok: bool, mbps: real, got: Option<Row>, t: Sys)
    requires Inv(s) && OnLine(s, cid, Release(url, ok, mbps), got, t)
    ensures PoolOk(t.rows) && PollOk(t) && VerdictOk(t)
    ensures Moves(s, t, url, false, if url in s.conns[cid].held then -1 else 0)
    ensures url in s.conns[cid].held ==> Claims(s, url) >= 1
  {
    ReleaseKeeps(s.rows, url, ok, mbps, t.rows);
    OwnCount(s.conns, cid, url);
    VerdictAfterRelease(s, t, url, ok, mbps);
    FreedMoves(s, cid, url, t);
  }

  lemma TargetLineKeeps(s: Sys, cid: nat, url: string, got: Option<Row>, t: Sys)
    requires Inv(s) && OnLine(s, cid, Target(url), got, t)
    ensures PoolOk(t.rows) && Keeps(s, t) && PollOk(t) && VerdictOk(t)
  {
    TargetStartKeeps(s.rows);
    if url != "" {
      forall a | a in Addresses(s.rows)
        ensures a in Addresses(t.rows)
      {
        var i :| 0 <= i < |s.rows| && s.rows[i].address == a;
        assert t.rows[i].address == a;
      }
    }
  }

  lemma TargetDoneKeeps(s: Sys, passed: map<Address, real>, t: Sys)
    requires Inv(s) && Next(s, TargetDone(passed), t)
    ensures PoolOk(t.rows) && Keeps(s, t) && PollOk(t) && VerdictOk(t)
  {
    TargetKeeps(s.rows, passed, t.rows);
    forall i | 0 <= i < |t.rows|
      ensures t.rows[i].targetOk <==> t.rows[i].address in passed.Keys
    {
      assert t.rows[i] in t.rows;
    }
  }

  lemma OtherLineKeeps(s: Sys, cid: nat, request: Request, got: Option<Row>, t: Sys)
    requires Inv(s) && OnLine(s, cid, request, got, t)
    requires !request.Release? && !request.Target? && (request.Acquire? ==> s.stopping)
    ensures PoolOk(t.rows) && Keeps(s, t) && PollOk(t) && VerdictOk(t)
  {
    forall a
      ensures Claims(t, a) == Claims(s, a)
    {
      if request.Hello? { ClaimsUpdate(s, cid, t.conns[cid], a); }
      assert s.conns[cid].held[..0] == [];
    }
  }

  lemma AcceptKeeps(s: Sys, t: Sys)
    requires Inv(s) && Next(s, Accept, t)
    ensures PoolOk(t.rows) && Keeps(s, t) && PollOk(t) && VerdictOk(t)
  {
    forall url
      ensures Claims(t, url) == Claims(s, url)
    {
      var n := |s.conns|;
      assert HeldCounts(t.conns, url)[..n] == HeldCounts(s.conns, url);
      assert HeldCounts(t.conns, url)[n] == 0;
    }
  }

  lemma HangUpKeeps(s: Sys, cid: nat, t: Sys)
    requires Inv(s) && Next(s, HangUp(cid), t)
    ensures PoolOk(t.rows) && Keeps(s, t) && PollOk(t) && VerdictOk(t)
  {
    assert s.conns[cid].held[..0] == [];
  }

  lemma RowsReplaced(s: Sys, rows: seq<Row>, t: Sys)
    requires PollOk(s) && BusyAddresses(rows) == BusyAddresses(s.rows) && t == s.(rows := rows, verdict := None)
    ensures Keeps(s, t) && PollOk(t) && VerdictOk(t)
  {
  }

  lemma InstallActionKeeps(s: Sys, tested: seq<Row>, t: Sys)
    requires Inv(s) && Next(s, Install(tested), t)
    ensures PoolOk(t.rows) && Keeps(s, t) && PollOk(t) && VerdictOk(t)
  {
    InstallKeeps(s.rows, tested, s.maxKeep, t.rows);
    RowsReplaced(s, t.rows, t);
  }

  lemma OuterKeeps(s: Sys, a: Action, t: Sys)
    requires Inv(s) && Next(s, a, t) && (a.Accept? || a.HangUp? || a.Install? || a.BeginStop?)
    ensures PoolOk(t.rows) && Keeps(s, t) && PollOk(t) && VerdictOk(t)
  {
    if a.Accept? {
      AcceptKeeps(s, t);
    } else if a.HangUp? {
      HangUpKeeps(s, a.cid, t);
    } else if a.Install? {
      InstallActionKeeps(s, a.tested, t);
    }
  }

  /** The step leases a proxy that was free. */
  ghost predicate Grants(s: Sys, a: Action, t: Sys) {
    && a.Line? && a.request.Acquire? && a.got.Some? && !s.stopping
    && a.got.value.address !in BusyAddresses(s.rows)
    && Moves(s, t, a.got.value.address, true, 1)
  }

  /** The step ends the lease of an address, on behalf of someone who held it or did not. */
  ghost predicate Frees(s: Sys, a: Action, t: Sys, url: Address) {
    if a.Line? then
      && a.request.Release? && url == a.request.url && a.cid < |s.conns|
      && (url in s.conns[a.cid].held ==> Claims(s, url) >= 1)
      && Moves(s, t, url, false, if url in s.conns[a.cid].held then -1 else 0)
    else Claims(s, url) >= 1 && Moves(s, t, url, false, -1)
  }

  lemma LineEffect(s: Sys, cid: nat, request: Request, got: Option<Row>, t: Sys)
    requires Inv(s) && OnLine(s, cid, request, got, t)
    ensures PoolOk(t.rows) && PollOk(t) && VerdictOk(t)
    ensures var a := Line(cid, request, got);
            Keeps(s, t) || Grants(s, a, t) || (request.Release? && Frees(s, a, t, request.url))
  {
    if request.Acquire? && !s.stopping {
      AcquireMoves(s, cid, request.skip, got, t);
    } else if request.Release? {
      ReleaseMoves(s, cid, request.url, request.ok, request.mbps, got, t);
    } else if request.Target? {
      TargetLineKeeps(s, cid, request.url, got, t);
    } else {
      OtherLineKeeps(s, cid, request, got, t);
    }
  }

  /** What a step does to leases and claims, in one statement: nothing, a lease with its claim,
      or the end of a lease with the claim of the one who ends it -- if he has one. */
  lemma StepEffect(s: Sys, a: Action, t: Sys) returns (url: Address)
    requires Inv(s) && Next(s, a, t)
    ensures PoolOk(t.rows) && PollOk(t) && VerdictOk(t)
    ensures Keeps(s, t) || Grants(s, a, t) || Frees(s, a, t, url)
  {
    url := "";
    if a.Line? {
      LineEffect(s, a.cid, a.request, a.got, t);
      if a.request.Release? { url := a.request.url; }
    } else if a.Enter? {
      EnterKeeps(s, a.written, t);
    } else if a.Erase? {
      EraseKeeps(s, t);
    } else if a.ReleaseNext? {
      ReleaseNextMoves(s, t);
      url := s.conns[s.poll.cid].held[s.poll.done];
    } else if a.Close? {
      CloseKeeps(s, t);
    } else if a.TargetDone? {
      TargetDoneKeeps(s, a.passed, t);
    } else {
      OuterKeeps(s, a, t);
    }
  }

  // ---- the two invariants ----

  lemma ClaimsNonNegative(s: Sys, a: Address)
    requires PollOk(s)
    ensures Claims(s, a) >= 0
  {
    SumNonNegative(HeldCounts(s.conns, a));
    if s.poll.Freed? || s.poll.Dropping? {
      OwnCount(s.conns, s.poll.cid, a);
      var held := s.conns[s.poll.cid].held;
      if s.poll.Dropping? {
        assert held == held[..s.poll.done] + held[s.poll.done..];
      }
    }
  }

  lemma EffectKeepsNoLeak(s: Sys, a: Action, t: Sys, url: Address)
    requires PollOk(s) && NoLeak(s) && (Keeps(s, t) || Grants(s, a, t) || Frees(s, a, t, url))
    ensures NoLeak(t)
  {
    forall b | b in BusyAddresses(t.rows)
      ensures Claims(t, b) >= 1
    {
      ClaimsNonNegative(s, b);
      if b in BusyAddresses(s.rows) { assert Claims(s, b) >= 1; }
    }
  }

  /** No lease leaks, whatever the clients send. */
  lemma StepKeepsInv(s: Sys, a: Action, t: Sys)
    requires Inv(s) && Next(s, a, t)
    ensures Inv(t)
  {
    var url := StepEffect(s, a, t);
    EffectKeepsNoLeak(s, a, t, url);
  }

  lemma EffectKeepsExclusive(s: Sys, a: Action, t: Sys, url: Address)
    requires Exclusive(s) && Honest(s, a) && (Keeps(s, t) || Grants(s, a, t) || Frees(s, a, t, url))
    ensures Exclusive(t)
  {
    forall b
      ensures Claims(t, b) == Bit(b in BusyAddresses(t.rows))
    {
      assert Claims(s, b) == Bit(b in BusyAddresses(s.rows));
    }
  }

  /** Honest clients: leases and holders stay one to one. */
  lemma StepKeepsExclusive(s: Sys, a: Action, t: Sys)
    requires Inv(s) && Exclusive(s) && Next(s, a, t) && Honest(s, a)
    ensures Exclusive(t)
  {
    var url := StepEffect(s, a, t);
    EffectKeepsExclusive(s, a, t, url);
  }

  /** And only honest clients: a RELEASE keeps leases and holders one to one exactly if the
      sender holds the proxy or nobody does. */
  lemma ReleaseKeepsExclusiveIff(s: Sys, cid: nat, url: string, ok: bool, mbps: real, t: Sys)
    requires Inv(s) && Exclusive(s) && Next(s, Line(cid, Release(url, ok, mbps), None), t)
    ensures Exclusive(t) <==> url in s.conns[cid].held || url !in BusyAddresses(s.rows)
  {
    ReleaseMoves(s, cid, url, ok, mbps, None, t);
    assert Claims(s, url) == Bit(url in BusyAddresses(s.rows));
    assert Exclusive(t) ==> Claims(t, url) == Bit(url in BusyAddresses(t.rows));
    if url in s.conns[cid].held || url !in BusyAddresses(s.rows) {
      forall b
        ensures Claims(t, b) == Bit(b in BusyAddresses(t.rows))
      {
        assert Claims(s, b) == Bit(b in BusyAddresses(s.rows));
      }
    }
  }

  // ---- whole runs ----

  ghost predicate IsRun(states: seq<Sys>, actions: seq<Action>) {
    && |states| == |actions| + 1 && Starts(states[0])
    && forall i :: 0 <= i < |actions| ==> Next(states[i], actions[i], states[i + 1])
  }

  lemma {:induction false} RunKeepsInv(states: seq<Sys>, actions: seq<Action>, n: nat)
    requires IsRun(states, actions) && n < |states|
    ensures Inv(states[n])
    ensures (forall i :: 0 <= i < n ==> Honest(states[i], actions[i])) ==> Exclusive(states[n])
  {
    if n == 0 {
      assert BusyAddresses(states[0].rows) == {};
    } else {
      RunKeepsInv(states, actions, n - 1);
      StepKeepsInv(states[n - 1], actions[n - 1], states[n]);
      if forall i :: 0 <= i < n ==> Honest(states[i], actions[i]) {
        StepKeepsExclusive(states[n - 1], actions[n - 1], states[n]);
      }
    }
  }

  /** In a run of honest clients no proxy is leased twice: not to two connections, and not twice
      to one, whatever refreshes, target tests and disconnects come in between. */
  lemma NoProxyIsLeasedTwice(states: seq<Sys>, actions: seq<Action>, n: nat, i: nat, j: nat, url: Address)
    requires IsRun(states, actions) && n < |states| && states[n].poll.Idle?
    requires forall k :: 0 <= k < n ==> Honest(states[k], actions[k])
    requires i < |states[n].conns| && j < |states[n].conns|
    requires url in states[n].conns[i].held && url in states[n].conns[j].held
    ensures i == j && Times(states[n].conns[i].held, url) == 1 && url in BusyAddresses(states[n].rows)
  {
    RunKeepsInv(states, actions, n);
    HeldOnce(states[n], i, j, url);
  }

  /** Between two requests one claim is one entry of one list. */
  lemma HeldOnce(s: Sys, i: nat, j: nat, url: Address)
    requires Exclusive(s) && s.poll.Idle? && i < |s.conns| && j < |s.conns|
    requires url in s.conns[i].held && url in s.conns[j].held
    ensures i == j && Times(s.conns[i].held, url) == 1 && url in BusyAddresses(s.rows)
  {
    assert Claims(s, url) == Bit(url in BusyAddresses(s.rows));
    OwnCount(s.conns, i, url);
    if i != j {
      TwoCounts(s.conns, i, j, url);
      assert false;
    }
  }

  lemma {:induction false} TwoCounts(conns: seq<Conn>, i: nat, j: nat, a: Address)
    requires i < |conns| && j < |conns| && i != j
    ensures Sum(HeldCounts(conns, a)) >= Times(conns[i].held, a) + Times(conns[j].held, a)
  {
    var n := |conns| - 1;
    assert HeldCounts(conns, a)[..n] == HeldCounts(conns[..n], a);
    if i < n && j < n {
      TwoCounts(conns[..n], i, j, a);
    } else if i < n {
      OwnCount(conns[..n], i, a);
    } else {
      OwnCount(conns[..n], j, a);
    }
  }

  /** Whatever the clients have sent: once every connection is gone, as graceful stop leaves
      them, no row is busy. */
  lemma NothingLeasedAfterStop(states: seq<Sys>, actions: seq<Action>, n: nat)
    requires IsRun(states, actions) && n < |states| && states[n].poll.Idle?
    requires forall i :: 0 <= i < |states[n].conns| ==> !states[n].conns[i].open
    ensures Count(IsBusy, states[n].rows) == 0
  {
    RunKeepsInv(states, actions, n);
    var s := states[n];
    forall i | 0 <= i < |s.rows|
      ensures !s.rows[i].busy
    {
      var a := s.rows[i].address;
      var counts := HeldCounts(s.conns, a);
      SumBounds(counts, 0, 0);
      assert s.rows[i].busy ==> a in BusyAddresses(s.rows);
      assert a in BusyAddresses(s.rows) ==> Claims(s, a) >= 1;
    }
    CountBounds(IsBusy, s.rows);
  }

  /** The open connection that holds a busy address. */
  lemma HolderOf(s: Sys, url: Address) returns (i: nat)
    requires Inv(s) && s.poll.Idle? && url in BusyAddresses(s.rows)
    ensures i < |s.conns| && s.conns[i].open && url in s.conns[i].held
  {
    assert Claims(s, url) >= 1;
    var counts := HeldCounts(s.conns, url);
    if forall i :: 0 <= i < |s.conns| ==> Times(s.conns[i].held, url) == 0 {
      SumBounds(counts, 0, 0);
    }
    i :| 0 <= i < |s.conns| && Times(s.conns[i].held, url) != 0;
    assert url in s.conns[i].held;
  }

  /** Every busy row is on the held list of an open connection, whatever the clients send. */
  lemma EveryLeaseHasAHolder(states: seq<Sys>, actions: seq<Action>, n: nat, url: Address)
    requires IsRun(states, actions) && n < |states| && states[n].poll.Idle?
    requires url in BusyAddresses(states[n].rows)
    ensures exists i :: 0 <= i < |states[n].conns| && states[n].conns[i].open && url in states[n].conns[i].held
  {
    RunKeepsInv(states, actions, n);
    var i := HolderOf(states[n], url);
  }

  /** From the end of a target test to the next installation, every proxy handed out has passed
      that test; and a shutdown hands out none. */
  lemma OnlyVerifiedProxies(states: seq<Sys>, actions: seq<Action>, n: nat)
    requires IsRun(states, actions) && n + 1 < |states|
    requires actions[n].Line? && actions[n].request.Acquire? && states[n + 1].poll.Granted?
    ensures !states[n].stopping
    ensures states[n].verdict.Some? ==> states[n + 1].poll.url in states[n].verdict.value
  {
    RunKeepsInv(states, actions, n);
    var s, a, t := states[n], actions[n], states[n + 1];
    if !s.stopping {
      AcquireMoves(s, a.cid, a.request.skip, a.got, t);
    }
  }

  /** While no list is installed and no other target is set, the verdict of a test stands. */
  lemma {:induction false} VerdictStands(states: seq<Sys>, actions: seq<Action>, m: nat, n: nat, passed: map<Address, real>)
    requires IsRun(states, actions) && m < n < |states| && actions[m] == TargetDone(passed)
    requires forall i :: m < i < n ==> !actions[i].Install? && !(actions[i].Line? && actions[i].request.Target?)
    ensures states[n].verdict == Some(passed.Keys) && !states[n].poll.Testing?
  {
    if n == m + 1 {
      assert Next(states[m], actions[m], states[n]);
    } else {
      VerdictStands(states, actions, m, n - 1, passed);
      assert Next(states[n - 1], actions[n - 1], states[n]);
    }
  }

  /** After a target test, and until a list is installed or another target is set, an ACQUIRE gets a
      proxy if and only if one that passed is in the pool and idle; unless the daemon is stopping. */
  lemma AcquireAfterTarget(states: seq<Sys>, actions: seq<Action>, m: nat, n: nat, passed: map<Address, real>)
    requires IsRun(states, actions) && m < n < |actions| && actions[m] == TargetDone(passed)
    requires forall i :: m < i < n ==> !actions[i].Install? && !(actions[i].Line? && actions[i].request.Target?)
    requires actions[n].Line? && actions[n].request.Acquire?
    ensures states[n + 1].poll.Granted? <==>
              !states[n].stopping
              && exists i :: 0 <= i < |states[n].rows| && !states[n].rows[i].busy && states[n].rows[i].address in passed
  {
    VerdictStands(states, actions, m, n, passed);
    RunKeepsInv(states, actions, n);
    var s, a, t := states[n], actions[n], states[n + 1];
    assert Next(s, a, t);
    if !s.stopping { AcquireTakesTheFastest(s.rows, s.filter, a.request.skip, t.rows, a.got); }
  }

  // ---- nothing before HELLO ----

  /** The poll thread does something for the connection that its client has asked for. */
  predicate Serving(p: Poll, cid: nat) { (p.Granted? || p.Freed? || p.Testing?) && p.cid == cid }

  predicate StillUngreeted(s: Sys, cid: nat) { cid < |s.conns| && s.conns[cid].open && !s.conns[cid].greeted }

  /** Nothing has come from the connection yet that the daemon would act on. */
  predicate OnlyNoise(a: Action, cid: nat) {
    a.Line? && a.cid == cid ==> a.request.Nothing? || a.request.Malformed?
  }

  lemma StepBeforeHello(s: Sys, a: Action, t: Sys, cid: nat)
    requires PollOk(s) && Next(s, a, t) && StillUngreeted(t, cid)
    requires StillUngreeted(s, cid) ==> s.conns[cid].held == [] && !Serving(s.poll, cid)
    ensures cid < |s.conns| ==> StillUngreeted(s, cid)
    ensures OnlyNoise(a, cid) && t.conns[cid].held == [] && !Serving(t.poll, cid)
  {
  }

  lemma {:induction false} EmptyBeforeHello(states: seq<Sys>, actions: seq<Action>, n: nat, cid: nat)
    requires IsRun(states, actions) && n < |states| && StillUngreeted(states[n], cid)
    ensures states[n].conns[cid].held == [] && !Serving(states[n].poll, cid)
  {
    if n > 0 {
      var s := states[n - 1];
      RunKeepsInv(states, actions, n - 1);
      if StillUngreeted(s, cid) { EmptyBeforeHello(states, actions, n - 1, cid); }
      StepBeforeHello(s, actions[n - 1], states[n], cid);
    }
  }

  lemma LastIsNoise(states: seq<Sys>, actions: seq<Action>, n: nat, cid: nat)
    requires IsRun(states, actions) && n < |actions| && StillUngreeted(states[n + 1], cid)
    ensures OnlyNoise(actions[n], cid) && (cid < |states[n].conns| ==> StillUngreeted(states[n], cid))
  {
    RunKeepsInv(states, actions, n);
    if StillUngreeted(states[n], cid) { EmptyBeforeHello(states, actions, n, cid); }
    StepBeforeHello(states[n], actions[n], states[n + 1], cid);
  }

  /** In every run: a connection that is open and has not said HELLO has nothing, and nothing was
      leased, released, targeted or stopped for it, whatever it has sent. */
  lemma {:induction false} NothingBeforeHello(states: seq<Sys>, actions: seq<Action>, n: nat, cid: nat)
    requires IsRun(states, actions) && n < |states| && StillUngreeted(states[n], cid)
    ensures states[n].conns[cid].held == [] && !Serving(states[n].poll, cid)
    ensures forall i :: 0 <= i < n ==> OnlyNoise(actions[i], cid)
  {
    EmptyBeforeHello(states, actions, n, cid);
    if n > 0 {
      LastIsNoise(states, actions, n - 1, cid);
      if cid < |states[n - 1].conns| {
        NothingBeforeHello(states, actions, n - 1, cid);
      } else {
        NotYetAccepted(states, actions, n - 1, cid);
      }
    }
  }

  lemma LinesAreOfAccepted(s: Sys, a: Action, t: Sys)
    requires Next(s, a, t)
    ensures |s.conns| <= |t.conns| && (a.Line? ==> a.cid < |s.conns|)
  {
  }

  lemma {:induction false} NotYetAccepted(states: seq<Sys>, actions: seq<Action>, n: nat, cid: nat)
    requires IsRun(states, actions) && n < |states| && cid >= |states[n].conns|
    ensures forall i :: 0 <= i < n ==> OnlyNoise(actions[i], cid)
  {
    if n > 0 {
      LinesAreOfAccepted(states[n - 1], actions[n - 1], states[n]);
      NotYetAccepted(states, actions, n - 1, cid);
    }
  }

  /** A target test during which no list was installed reports the number of live rows. */
  lemma TargetReportsLive(states: seq<Sys>, actions: seq<Action>, n: nat)
    requires IsRun(states, actions) && n + 1 < |states|
    requires actions[n].TargetDone? && states[n].verdict.Some?
    ensures Count(LiveTest(states[n + 1].filter), states[n + 1].rows) == |actions[n].passed|
  {
    RunKeepsInv(states, actions, n);
    var s, t := states[n], states[n + 1];
    TargetCount(s.rows, actions[n].passed, t.rows);
  }
}
