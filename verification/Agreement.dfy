/** The pool, the daemon's connections and the clients together (src/proxchunkd.cpp:396-552, 752-896;
    src/proxy_ipc.cpp:311-339, 398-442, 502-580).

    A world is the daemon's system, one link per connection that was ever accepted, and the clients.
    One step is a step of the daemon or the refresh thread, or a client's connect, write or read.
    `makers` is history: which client made each connection. */
module Agreement {
  import opened Wrappers
  import opened ProxyPool
  import opened PoolProperties
  import opened Protocol
  import opened LeaseSystem
  import opened Client

  /** A client: the connection it uses, held_, the request it waits for an answer to, and what its
      callers have been given by acquire and have not released. */
  datatype Peer = Peer(conn: Option<nat>, held: seq<Address>, asked: Option<Request>, lent: seq<Address>)

  datatype World = World(sys: Sys, links: seq<Link>, peers: seq<Peer>, makers: seq<nat>)

  datatype Act =
    | Dial(k: nat, up: bool)
    | Ask(k: nat, cmd: Request, written: bool, seen: Request)
    | Take(k: nat)
    | Stray(k: nat)
    | Serve(a: Action, turn: Turn)

  /** The requests that a client makes. */
  predicate Command(r: Request) { !r.Nothing? && !r.Malformed? && !r.Unknown? }

  function AfterAsk(p: Peer, cmd: Request, written: bool): Peer {
    var lent := if cmd.Release? then EraseFirst(p.lent, cmd.url) else p.lent;
    if written then p.(asked := Some(cmd), lent := lent) else p.(held := AfterAnswer(p.held, cmd, None), lent := lent)
  }

  function AfterTake(p: Peer, got: Option<Answer>): Peer
    requires p.asked.Some?
  {
    var lease := if p.asked.value.Acquire? then LeaseOf(got) else None;
    p.(asked := None, held := AfterAnswer(p.held, p.asked.value, got),
       lent := if lease.Some? then p.lent + [lease.value] else p.lent)
  }

  /** The connection whose client sees the end of what it asked for, or of the connection. */
  function Turning(s: Sys, a: Action, t: Sys): Option<nat> {
    match a
    case Line(cid, _, _) => if t.poll.Idle? || t.poll.Dropping? then Some(cid) else None
    case Enter(_) => if s.poll.Granted? then Some(s.poll.cid) else None
    case Erase => if s.poll.Freed? then Some(s.poll.cid) else None
    case TargetDone(_) => if s.poll.Testing? then Some(s.poll.cid) else None
    case HangUp(cid) => Some(cid)
    case _ => None
  }

  /** A line is the next one of its connection, and the turn is what the step says to the client. */
  predicate Suits(w: World, a: Action, t: Sys, turn: Turn) {
    match a
    case Line(cid, request, _) =>
      && cid < |w.links| && w.links[cid].handled < |w.links[cid].requests|
      && request == w.links[cid].requests[w.links[cid].handled]
      && (Turning(w.sys, a, t).Some? ==> turn.Handles? && Fits(request, turn.reply) && !turn.reply.Lease?)
    case Enter(written) =>
      turn.Handles? && turn.delivered == written && w.sys.poll.Granted? && turn.reply == Lease(w.sys.poll.url)
    case Erase => turn.Handles? && turn.reply.Done?
    case TargetDone(_) => turn.Handles? && turn.reply.Reached?
    case HangUp(_) => turn.HangsUp?
    case _ => true
  }

  predicate HasLink(w: World, k: nat) {
    k < |w.peers| && w.peers[k].conn.Some? && w.peers[k].conn.value < |w.links|
  }

  /** reconnect: the client leaves its connection, forgets its list, and has a new connection if the
      daemon accepts one. */
  ghost predicate Dials(w: World, k: nat, up: bool, v: World) {
    && k < |w.peers| && w.peers[k].asked.None?
    && v.peers == w.peers[k := w.peers[k].(conn := if up then Some(|w.links|) else None, held := [])]
    && if up then Next(w.sys, Accept, v.sys) && v.links == w.links + [Fresh(!w.sys.stopping)] && v.makers == w.makers + [k]
       else v.sys == w.sys && v.links == w.links && v.makers == w.makers
  }

  predicate Asks(w: World, k: nat, cmd: Request, written: bool, seen: Request, v: World) {
    && HasLink(w, k) && w.peers[k].asked.None? && Command(cmd) && v.sys == w.sys && v.makers == w.makers
    && var i := w.peers[k].conn.value;
       && v.links == w.links[i := Written(w.links[i], cmd, Attempt(written, seen, []))]
       && v.peers == w.peers[k := AfterAsk(w.peers[k], cmd, written)]
  }

  predicate Takes(w: World, k: nat, v: World) {
    && HasLink(w, k) && w.peers[k].asked.Some? && v.sys == w.sys && v.makers == w.makers
    && var i := w.peers[k].conn.value;
       && v.links == w.links[i := Taken(w.links[i]).0]
       && v.peers == w.peers[k := AfterTake(w.peers[k], Taken(w.links[i]).1)]
  }

  /** The keepalive thread reads after a write that failed. */
  predicate Strays(w: World, k: nat, v: World) {
    && HasLink(w, k) && w.peers[k].asked.None? && v.sys == w.sys && v.makers == w.makers
    && var i := w.peers[k].conn.value;
       w.links[i].cut && v.links == w.links[i := StrayRead(w.links[i])] && v.peers == w.peers
  }

  ghost predicate Serves(w: World, a: Action, turn: Turn, v: World) {
    && !a.Accept? && Next(w.sys, a, v.sys) && Suits(w, a, v.sys, turn) && v.peers == w.peers && v.makers == w.makers
    && v.links == match Turning(w.sys, a, v.sys)
                  case None => w.links
                  case Some(cid) => if cid < |w.links| then w.links[cid := Turned(w.links[cid], turn)] else w.links
  }

  ghost predicate Steps(w: World, act: Act, v: World) {
    match act
    case Dial(k, up) => Dials(w, k, up, v)
    case Ask(k, cmd, written, seen) => Asks(w, k, cmd, written, seen, v)
    case Take(k) => Takes(w, k, v)
    case Stray(k) => Strays(w, k, v)
    case Serve(a, turn) => Serves(w, a, turn, v)
  }

  ghost predicate Begins(w: World) {
    Starts(w.sys) && w.links == [] && w.makers == [] && forall k :: 0 <= k < |w.peers| ==> w.peers[k] == Peer(None, [], None, [])
  }

  ghost predicate IsHistory(worlds: seq<World>, acts: seq<Act>) {
    && |worlds| == |acts| + 1 && Begins(worlds[0])
    && forall i :: 0 <= i < |acts| ==> Steps(worlds[i], acts[i], worlds[i + 1])
  }

  // ---- a client and its link ----

  /** The daemon heard the request as it was meant, unless it came before HELLO or said it twice. */
  predicate Meant(heard: Request, cmd: Request) {
    heard == cmd || heard.Malformed? || (cmd.Hello? && heard.Unknown?)
  }

  /** While every request on the link was answered in time, the client's list is the daemon's, up to
      the answer that is on its way. */
  predicate InTouch(p: Peer, l: Link) {
    match p.asked
    case None => l.open ==> l.held == p.held
    case Some(cmd) =>
      && l.requests != [] && Meant(l.requests[|l.requests| - 1], cmd)
      && (l.open ==>
            if l.handled < |l.requests| then l.held == p.held
            else if l.read < |l.answers| && l.answers[l.read].Answer?
            then l.held == HeldAfter(p.held, cmd, l.answers[l.read].reply)
            else true)
  }

  predicate Paired(p: Peer, l: Link) {
    && Sound(l) && |l.requests| == l.read + l.misses + Bit(p.asked.Some?)
    && (Calm(l) ==> InTouch(p, l))
  }

  lemma PairedTurn(p: Peer, l: Link, turn: Turn)
    requires Paired(p, l)
    ensures Paired(p, Turned(l, turn))
  {
    TurnedSound(l, turn);
  }

  lemma PairedAsk(p: Peer, l: Link, cmd: Request, at: Attempt)
    requires Paired(p, l) && p.asked.None?
    ensures Paired(AfterAsk(p, cmd, at.written), Written(l, cmd, at))
  {
    WrittenSound(l, cmd, at);
  }

  /** On a calm link the answer that is read is the one to the open request. */
  lemma OwnAnswer(p: Peer, l: Link)
    requires Paired(p, l) && Calm(l) && p.asked.Some? && l.read < |l.answers|
    ensures l.handled == |l.requests| == |l.answers| == l.read + 1
    ensures l.answers[l.read].Answer? && Answers(p.asked.value, l.answers[l.read].reply)
  {
    assert AnswerOk(l, l.read);
  }

  lemma PairedTake(p: Peer, l: Link)
    requires Paired(p, l) && p.asked.Some?
    ensures Paired(AfterTake(p, Taken(l).1), Taken(l).0)
  {
    var (m, got) := Taken(l);
    ClientSideIsFree(l, m);
    if Calm(m) {
      OwnAnswer(p, l);
      AnswerAgrees(l.answers[l.read], p.held, p.asked.value);
    }
  }

  lemma PairedStray(p: Peer, l: Link)
    requires Paired(p, l) && p.asked.None? && l.cut
    ensures Paired(p, StrayRead(l))
  {
    ClientSideIsFree(l, StrayRead(l));
  }

  // ---- what every step keeps ----

  /** Every line on the link is one that a connection can make at that point. */
  predicate Greeting(l: Link) {
    forall i :: 0 <= i < |l.requests| ==> Admitted(Hello in l.requests[..i], l.requests[i])
  }

  lemma GreetingWritten(l: Link, cmd: Request, at: Attempt)
    requires Greeting(l)
    ensures Greeting(Written(l, cmd, at))
  {
    var m := Written(l, cmd, at);
    forall i | 0 <= i < |m.requests|
      ensures Admitted(Hello in m.requests[..i], m.requests[i])
    {
      assert m.requests[..i] == l.requests[..i];
      assert l.requests[..|l.requests|] == l.requests;
    }
  }

  lemma GreetingTurned(l: Link, turn: Turn)
    requires Sound(l)
    ensures var m := Turned(l, turn);
            && (Greeting(l) ==> Greeting(m)) && m.handled <= |m.requests|
            && (Hello in m.requests[..m.handled] <==>
                  Hello in l.requests[..l.handled] || (m.handled > l.handled && l.requests[l.handled] == Hello))
  {
    TurnedSound(l, turn);
    var m := Turned(l, turn);
    if m.handled > l.handled { assert m.requests[..m.handled] == l.requests[..l.handled] + [l.requests[l.handled]]; }
  }

  /** What the daemon does to a connection is a turn of its link: the two agree, except that a
      connection which is being dropped is already closed for the client. */
  predicate LinkOk(w: World, j: nat)
    requires j < |w.links| == |w.sys.conns|
  {
    var l, c := w.links[j], w.sys.conns[j];
    && Sound(l) && Greeting(l)
    && (l.open ==> c.open && c.held == l.held && (c.greeted <==> Hello in l.requests[..l.handled]))
    && (if l.open then !(w.sys.poll.Dropping? && w.sys.poll.cid == j)
        else !c.open || (w.sys.poll.Dropping? && w.sys.poll.cid == j))
  }

  predicate LinksOk(w: World) {
    |w.links| == |w.sys.conns| && forall j :: 0 <= j < |w.links| ==> LinkOk(w, j)
  }

  predicate Handling(w: World, cid: nat) {
    cid < |w.links| && w.links[cid].open && w.links[cid].handled < |w.links[cid].requests|
  }

  function Current(w: World, cid: nat): Request
    requires Handling(w, cid)
  {
    w.links[cid].requests[w.links[cid].handled]
  }

  /** What the poll thread is in the middle of was asked for on that connection. */
  predicate ServingOk(w: World) {
    match w.sys.poll
    case Granted(cid, _) => Handling(w, cid) && Current(w, cid).Acquire?
    case Freed(cid, url) => Handling(w, cid) && Current(w, cid).Release? && Current(w, cid).url == url
    case Testing(cid, _) => Handling(w, cid) && Current(w, cid).Target?
    case _ => true
  }

  predicate PeerOk(w: World, k: nat)
    requires k < |w.peers|
  {
    var p := w.peers[k];
    match p.conn
    case None => p.held == [] && p.asked.None?
    case Some(i) => i < |w.links| == |w.makers| && w.makers[i] == k && Paired(p, w.links[i])
  }

  predicate PeersOk(w: World) {
    |w.makers| == |w.links| && forall k :: 0 <= k < |w.peers| ==> PeerOk(w, k)
  }

  ghost predicate WorldOk(w: World) {
    Inv(w.sys) && LinksOk(w) && ServingOk(w) && PeersOk(w)
  }

  // ---- the clients' steps ----

  lemma DialKeeps(w: World, k: nat, up: bool, v: World)
    requires WorldOk(w) && Dials(w, k, up, v)
    ensures WorldOk(v)
  {
    if up { StepKeepsInv(w.sys, Accept, v.sys); }
    forall j | 0 <= j < |v.links|
      ensures LinkOk(v, j)
    {
      assert j < |w.links| ==> LinkOk(w, j);
    }
    DialKeepsPeers(w, k, up, v);
  }

  lemma DialKeepsPeers(w: World, k: nat, up: bool, v: World)
    requires PeersOk(w) && Dials(w, k, up, v)
    ensures PeersOk(v)
  {
    forall m | 0 <= m < |v.peers|
      ensures PeerOk(v, m)
    {
      assert PeerOk(w, m);
    }
  }

  /** One client and its link change, and nothing that the daemon knows of. */
  lemma ClientKeeps(w: World, k: nat, v: World, i: nat)
    requires WorldOk(w) && k < |w.peers| && w.peers[k].conn == Some(i) && i < |w.links|
    requires |v.links| == |w.links| && |v.peers| == |w.peers|
    requires v.sys == w.sys && v.makers == w.makers && v.links == w.links[i := v.links[i]] && v.peers == w.peers[k := v.peers[k]]
    requires v.peers[k].conn == Some(i) && Paired(v.peers[k], v.links[i])
    requires v.links[i].open == w.links[i].open && v.links[i].held == w.links[i].held && Greeting(v.links[i])
    requires v.links[i].handled == w.links[i].handled && w.links[i].requests <= v.links[i].requests
    ensures WorldOk(v)
  {
    forall j | 0 <= j < |v.links|
      ensures LinkOk(v, j)
    {
      assert LinkOk(w, j);
      assert v.links[j].requests[..v.links[j].handled] == w.links[j].requests[..w.links[j].handled];
    }
    assert PeerOk(w, k);
    forall m | 0 <= m < |v.peers|
      ensures PeerOk(v, m)
    {
      assert PeerOk(w, m);
    }
  }

  lemma AskKeeps(w: World, k: nat, cmd: Request, written: bool, seen: Request, v: World)
    requires WorldOk(w) && Asks(w, k, cmd, written, seen, v)
    ensures WorldOk(v)
  {
    assert PeerOk(w, k);
    var i := w.peers[k].conn.value;
    assert LinkOk(w, i);
    PairedAsk(w.peers[k], w.links[i], cmd, Attempt(written, seen, []));
    GreetingWritten(w.links[i], cmd, Attempt(written, seen, []));
    ClientKeeps(w, k, v, i);
  }

  lemma TakeKeeps(w: World, k: nat, v: World)
    requires WorldOk(w) && Takes(w, k, v)
    ensures WorldOk(v)
  {
    assert PeerOk(w, k);
    var i := w.peers[k].conn.value;
    assert LinkOk(w, i);
    PairedTake(w.peers[k], w.links[i]);
    ClientKeeps(w, k, v, i);
  }

  lemma StrayKeeps(w: World, k: nat, v: World)
    requires WorldOk(w) && Strays(w, k, v)
    ensures WorldOk(v)
  {
    assert PeerOk(w, k);
    var i := w.peers[k].conn.value;
    assert LinkOk(w, i);
    PairedStray(w.peers[k], w.links[i]);
    ClientKeeps(w, k, v, i);
  }

  // ---- the daemon's steps ----

  lemma TurnKeepsPeers(w: World, v: World, cid: nat, turn: Turn)
    requires PeersOk(w) && cid < |w.links| && v.peers == w.peers && v.makers == w.makers
    requires v.links == w.links[cid := Turned(w.links[cid], turn)]
    ensures PeersOk(v)
  {
    forall k | 0 <= k < |v.peers|
      ensures PeerOk(v, k)
    {
      assert PeerOk(w, k);
      if v.peers[k].conn == Some(cid) { PairedTurn(v.peers[k], w.links[cid], turn); }
    }
  }

  /** The other connections are as they were. */
  lemma OtherLinks(w: World, v: World, cid: nat)
    requires LinksOk(w) && cid < |w.links| && |v.links| == |w.links| && |v.sys.conns| == |w.sys.conns|
    requires forall j :: 0 <= j < |w.links| && j != cid ==> v.links[j] == w.links[j] && v.sys.conns[j] == w.sys.conns[j]
    requires v.sys.poll.Dropping? ==> v.sys.poll.cid == cid
    requires w.sys.poll.Dropping? ==> w.sys.poll.cid == cid
    requires LinkOk(v, cid)
    ensures LinksOk(v)
  {
    forall j | 0 <= j < |v.links|
      ensures LinkOk(v, j)
    {
      if j != cid { assert LinkOk(w, j); }
    }
  }

  lemma LineLinks(w: World, a: Action, turn: Turn, v: World)
    requires WorldOk(w) && Serves(w, a, turn, v) && a.Line?
    ensures LinksOk(v) && ServingOk(v)
  {
    var cid := a.cid;
    assert LinkOk(w, cid);
    TurnedSound(w.links[cid], turn);
    GreetingTurned(w.links[cid], turn);
    OtherLinks(w, v, cid);
  }

  lemma EnterLinks(w: World, a: Action, turn: Turn, v: World)
    requires WorldOk(w) && Serves(w, a, turn, v) && a.Enter?
    ensures LinksOk(v) && ServingOk(v)
  {
    var cid := w.sys.poll.cid;
    assert LinkOk(w, cid);
    TurnedSound(w.links[cid], turn);
    GreetingTurned(w.links[cid], turn);
    OtherLinks(w, v, cid);
  }

  lemma EraseLinks(w: World, turn: Turn, v: World)
    requires WorldOk(w) && Serves(w, Erase, turn, v)
    ensures LinksOk(v) && ServingOk(v)
  {
    var cid := w.sys.poll.cid;
    assert LinkOk(w, cid);
    TurnedSound(w.links[cid], turn);
    GreetingTurned(w.links[cid], turn);
    OtherLinks(w, v, cid);
  }

  lemma TargetDoneLinks(w: World, a: Action, turn: Turn, v: World)
    requires WorldOk(w) && Serves(w, a, turn, v) && a.TargetDone?
    ensures LinksOk(v) && ServingOk(v)
  {
    var cid := w.sys.poll.cid;
    assert LinkOk(w, cid);
    TurnedSound(w.links[cid], turn);
    GreetingTurned(w.links[cid], turn);
    OtherLinks(w, v, cid);
  }

  lemma DropLinks(w: World, a: Action, turn: Turn, v: World)
    requires WorldOk(w) && Serves(w, a, turn, v) && (a.HangUp? || a.ReleaseNext? || a.Close?)
    ensures LinksOk(v) && ServingOk(v)
  {
    var cid := if a.HangUp? then a.cid else w.sys.poll.cid;
    assert LinkOk(w, cid);
    TurnedSound(w.links[cid], turn);
    GreetingTurned(w.links[cid], turn);
    OtherLinks(w, v, cid);
  }

  lemma OuterLinks(w: World, a: Action, turn: Turn, v: World)
    requires WorldOk(w) && Serves(w, a, turn, v) && (a.Install? || a.BeginStop?)
    ensures LinksOk(v) && ServingOk(v)
  {
    forall j | 0 <= j < |v.links|
      ensures LinkOk(v, j)
    {
      assert LinkOk(w, j);
    }
  }

  lemma ServeKeeps(w: World, a: Action, turn: Turn, v: World)
    requires WorldOk(w) && Serves(w, a, turn, v)
    ensures WorldOk(v)
  {
    StepKeepsInv(w.sys, a, v.sys);
    if a.Line? {
      LineLinks(w, a, turn, v);
    } else if a.Enter? {
      EnterLinks(w, a, turn, v);
    } else if a.Erase? {
      EraseLinks(w, turn, v);
    } else if a.TargetDone? {
      TargetDoneLinks(w, a, turn, v);
    } else if a.Install? || a.BeginStop? {
      OuterLinks(w, a, turn, v);
    } else {
      DropLinks(w, a, turn, v);
    }
    ServePeers(w, a, turn, v);
  }

  lemma ServePeers(w: World, a: Action, turn: Turn, v: World)
    requires PeersOk(w) && Serves(w, a, turn, v)
    ensures PeersOk(v)
  {
    var cid := Turning(w.sys, a, v.sys);
    if cid.Some? && cid.value < |w.links| {
      TurnKeepsPeers(w, v, cid.value, turn);
    } else {
      forall k | 0 <= k < |v.peers|
        ensures PeerOk(v, k)
      {
        assert PeerOk(w, k);
      }
    }
  }

  lemma StepKeepsWorld(w: World, act: Act, v: World)
    requires WorldOk(w) && Steps(w, act, v)
    ensures WorldOk(v)
  {
    if act.Dial? {
      DialKeeps(w, act.k, act.up, v);
    } else if act.Ask? {
      AskKeeps(w, act.k, act.cmd, act.written, act.seen, v);
    } else if act.Take? {
      TakeKeeps(w, act.k, v);
    } else if act.Stray? {
      StrayKeeps(w, act.k, v);
    } else {
      ServeKeeps(w, act.a, act.turn, v);
    }
  }

  lemma {:induction false} HistoryKeepsWorld(worlds: seq<World>, acts: seq<Act>, n: nat)
    requires IsHistory(worlds, acts) && n < |worlds|
    ensures WorldOk(worlds[n])
  {
    if n == 0 {
      assert BusyAddresses(worlds[0].sys.rows) == {};
    } else {
      HistoryKeepsWorld(worlds, acts, n - 1);
      StepKeepsWorld(worlds[n - 1], acts[n - 1], worlds[n]);
    }
  }

  /** A line that waits on an open connection is one that the daemon can handle. */
  lemma WaitingIsAdmitted(worlds: seq<World>, acts: seq<Act>, n: nat, cid: nat)
    requires IsHistory(worlds, acts) && n < |worlds| && Handling(worlds[n], cid)
    ensures var w := worlds[n];
            cid < |w.sys.conns| && w.sys.conns[cid].open && Admitted(w.sys.conns[cid].greeted, Current(w, cid))
  {
    HistoryKeepsWorld(worlds, acts, n);
    assert LinkOk(worlds[n], cid);
  }

  // ---- agreement ----

  /** In every history, whatever the clients ask for and however requests fare: between two requests
      of a client on a connection that is open and on which every answer came in time, its list is
      the daemon's held list of that connection. */
  lemma ListsAgree(worlds: seq<World>, acts: seq<Act>, n: nat, k: nat)
    requires IsHistory(worlds, acts) && n < |worlds| && HasLink(worlds[n], k)
    requires var w := worlds[n]; var l := w.links[w.peers[k].conn.value];
             w.peers[k].asked.None? && Calm(l) && l.open
    ensures var w := worlds[n]; var i := w.peers[k].conn.value;
            i < |w.sys.conns| && w.sys.conns[i].open && w.sys.conns[i].held == w.peers[k].held
  {
    HistoryKeepsWorld(worlds, acts, n);
    var w := worlds[n];
    assert PeerOk(w, k);
    assert LinkOk(w, w.peers[k].conn.value);
  }

  /** The exact condition under which a RELEASE is honest, in terms of what the client can look up
      before it sends it: if and only if the address is on its own list. */
  lemma ReleaseIsHonestExactly(worlds: seq<World>, acts: seq<Act>, n: nat, k: nat)
    requires IsHistory(worlds, acts) && n < |acts| && HasLink(worlds[n], k)
    requires acts[n].Serve? && acts[n].a.Line? && acts[n].a.request.Release?
    requires worlds[n].peers[k].conn == Some(acts[n].a.cid) && worlds[n].peers[k].asked.Some?
    requires Calm(worlds[n].links[acts[n].a.cid])
    ensures Honest(worlds[n].sys, acts[n].a) <==> acts[n].a.request.url in worlds[n].peers[k].held
  {
    HistoryKeepsWorld(worlds, acts, n);
    var w, cid := worlds[n], acts[n].a.cid;
    assert Steps(w, acts[n], worlds[n + 1]);
    assert PeerOk(w, k);
    assert LinkOk(w, cid);
  }
}
