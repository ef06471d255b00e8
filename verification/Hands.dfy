/** Who has a proxy in hand: the callers of the clients, over whole histories
    (src/proxy_ipc.cpp:502-580; src/proxchunkd.cpp:396-552). */
module Hands {
  import opened Wrappers
  import opened ProxyPool
  import opened Protocol
  import opened LeaseSystem
  import opened Client
  import opened Agreement

  /** How client k is used in a step: it asks only while all answers on its connection came in time,
      and releases only what acquire gave its callers and they still have. */
  predicate Proper(w: World, act: Act, k: nat) {
    act.Ask? && act.k == k && HasLink(w, k) ==>
      Calm(w.links[w.peers[k].conn.value]) && (act.cmd.Release? ==> act.cmd.url in w.peers[k].lent)
  }

  /** Client k connects anew while its callers have the address: acquire does so when its request
      fails. */
  predicate Forgets(w: World, act: Act, k: nat, a: Address) {
    act.Dial? && act.k == k < |w.peers| && a in w.peers[k].lent
  }

  /** What goes well in a history: every client is used properly, and none connects anew while its
      callers have something. */
  predicate Careful(w: World, act: Act) {
    && (act.Ask? ==> Proper(w, act, act.k))
    && (act.Dial? && act.k < |w.peers| ==> w.peers[act.k].lent == [])
  }

  ghost predicate CarefulUpTo(worlds: seq<World>, acts: seq<Act>, n: nat) {
    IsHistory(worlds, acts) && n < |worlds| && forall i :: 0 <= i < n ==> Careful(worlds[i], acts[i])
  }

  // ---- one client, one address, one link ----

  /** A lease is on its way to the client. */
  predicate LeaseComing(p: Peer, l: Link) {
    && p.asked.Some? && p.asked.value.Acquire?
    && l.read < |l.answers| && l.answers[l.read].Answer? && l.answers[l.read].reply.Lease?
  }

  predicate Coming(p: Peer, l: Link, a: Address) { LeaseComing(p, l) && l.answers[l.read].reply.url == a }

  /** A RELEASE of the address waits to be handled. */
  predicate Leaving(l: Link, a: Address) {
    l.handled < |l.requests| && l.requests[l.handled].Release? && l.requests[l.handled].url == a
  }

  /** At most one request waits, and a release of the address is of something held. */
  predicate Waits(l: Link, a: Address) {
    l.open ==>
      && |l.requests| <= l.handled + 1
      && (Leaving(l, a) ==> a in l.held)
  }

  /** The daemon's list has an entry for everything in hand or on its way. */
  predicate InHand(p: Peer, l: Link, a: Address) {
    && (p.asked.Some? ==> Calm(l))
    && (l.open ==> Times(p.lent, a) + Bit(Leaving(l, a)) + Bit(Coming(p, l, a)) <= Times(l.held, a))
  }

  lemma WaitsTurn(l: Link, turn: Turn, a: Address)
    requires Waits(l, a)
    ensures Waits(Turned(l, turn), a)
  {
  }

  /** Handling a request changes the daemon's list by what it is about. */
  lemma TurnedTimes(l: Link, turn: Turn, a: Address)
    requires Sound(l) && Waits(l, a) && l.open && Turned(l, turn).open
    ensures var m := Turned(l, turn);
            Times(m.held, a) - Bit(Leaving(m, a))
            == Times(l.held, a) - Bit(Leaving(l, a))
               + Bit(m != l && turn.Handles? && turn.reply == Lease(a))
  {
    if l.handled < |l.requests| && turn.Handles? && l.requests[l.handled].Release? {
      EraseFirstCount(l.held, l.requests[l.handled].url, a);
    }
  }

  lemma TurnedComing(p: Peer, l: Link, turn: Turn, a: Address)
    requires Paired(p, l) && (p.asked.Some? ==> Calm(l))
    ensures var m := Turned(l, turn);
            Bit(Coming(p, m, a)) <= Bit(Coming(p, l, a)) + Bit(m != l && turn.Handles? && turn.reply == Lease(a))
  {
  }

  lemma InHandTurn(p: Peer, l: Link, turn: Turn, a: Address)
    requires Paired(p, l) && InHand(p, l, a) && Waits(l, a)
    ensures InHand(p, Turned(l, turn), a)
  {
    if Turned(l, turn).open {
      TurnedTimes(l, turn, a);
      TurnedComing(p, l, turn, a);
    }
  }

  lemma SettledLink(p: Peer, l: Link)
    requires Paired(p, l) && Calm(l) && p.asked.None?
    ensures l.handled == |l.requests| == l.read == |l.answers| && (l.open ==> l.held == p.held)
  {
  }

  lemma InHandAsk(p: Peer, l: Link, cmd: Request, at: Attempt, a: Address)
    requires Paired(p, l) && InHand(p, l, a) && Waits(l, a) && Calm(l) && p.asked.None? && Command(cmd)
    requires cmd.Release? ==> cmd.url in p.lent
    ensures InHand(AfterAsk(p, cmd, at.written), Written(l, cmd, at), a) && Waits(Written(l, cmd, at), a)
  {
    SettledLink(p, l);
    if cmd.Release? { EraseFirstCount(p.lent, cmd.url, a); }
  }

  lemma InHandTake(p: Peer, l: Link, a: Address)
    requires Paired(p, l) && InHand(p, l, a) && p.asked.Some?
    ensures InHand(AfterTake(p, Taken(l).1), Taken(l).0, a)
  {
    if l.read < |l.answers| {
      OwnAnswer(p, l);
      AnswerAgrees(l.answers[l.read], p.held, p.asked.value);
    }
  }

  // ---- what proper use of one client keeps, whatever the others do ----

  predicate PeerInHand(w: World, k: nat, a: Address)
    requires k < |w.peers|
  {
    match w.peers[k].conn
    case None => a !in w.peers[k].lent
    case Some(i) => i < |w.links| && InHand(w.peers[k], w.links[i], a)
  }

  /** On the client's connection what its callers have of the address is covered, and on all
      connections that it ever made a waiting release of the address is of something held. */
  predicate HandOk(w: World, k: nat, a: Address) {
    && (k < |w.peers| ==> PeerInHand(w, k, a))
    && |w.makers| == |w.links|
    && forall j :: 0 <= j < |w.links| && w.makers[j] == k ==> Waits(w.links[j], a)
  }

  lemma DialKeepsHand(w: World, m: nat, up: bool, v: World, k: nat, a: Address)
    requires WorldOk(w) && Dials(w, m, up, v) && !Forgets(w, Act.Dial(m, up), k, a) && HandOk(w, k, a)
    ensures HandOk(v, k, a)
  {
    if k < |w.peers| { assert PeerOk(w, k); }
  }

  /** One client and its link change. */
  lemma ClientKeepsHand(w: World, m: nat, v: World, i: nat, k: nat, a: Address)
    requires WorldOk(w) && HandOk(w, k, a) && m < |w.peers| && w.peers[m].conn == Some(i) && i < |w.links|
    requires |v.links| == |w.links| && |v.peers| == |w.peers| && v.makers == w.makers
    requires v.links == w.links[i := v.links[i]] && v.peers == w.peers[m := v.peers[m]]
    requires v.peers[m].conn == Some(i)
    requires m == k ==> InHand(v.peers[m], v.links[i], a) && Waits(v.links[i], a)
    ensures HandOk(v, k, a)
  {
    assert PeerOk(w, m);
    if k < |w.peers| { assert PeerOk(w, k); }
  }

  lemma AskKeepsHand(w: World, act: Act, v: World, k: nat, a: Address)
    requires WorldOk(w) && act.Ask? && Steps(w, act, v) && Proper(w, act, k) && HandOk(w, k, a)
    ensures HandOk(v, k, a)
  {
    var i := w.peers[act.k].conn.value;
    if act.k == k {
      assert PeerOk(w, k);
      InHandAsk(w.peers[k], w.links[i], act.cmd, Attempt(act.written, act.seen, []), a);
    }
    ClientKeepsHand(w, act.k, v, i, k, a);
  }

  lemma TakeKeepsHand(w: World, m: nat, v: World, k: nat, a: Address)
    requires WorldOk(w) && Takes(w, m, v) && HandOk(w, k, a)
    ensures HandOk(v, k, a)
  {
    var i := w.peers[m].conn.value;
    assert PeerOk(w, m);
    if m == k { InHandTake(w.peers[k], w.links[i], a); }
    ClientKeepsHand(w, m, v, i, k, a);
  }

  lemma StrayKeepsHand(w: World, m: nat, v: World, k: nat, a: Address)
    requires WorldOk(w) && Strays(w, m, v) && HandOk(w, k, a)
    ensures HandOk(v, k, a)
  {
    assert PeerOk(w, m);
    ClientKeepsHand(w, m, v, w.peers[m].conn.value, k, a);
  }

  lemma ServeKeepsHand(w: World, b: Action, turn: Turn, v: World, k: nat, a: Address)
    requires WorldOk(w) && Serves(w, b, turn, v) && HandOk(w, k, a)
    ensures HandOk(v, k, a)
  {
    var cid := Turning(w.sys, b, v.sys);
    if cid.Some? && cid.value < |w.links| && w.makers[cid.value] == k { WaitsTurn(w.links[cid.value], turn, a); }
    if k < |w.peers| && w.peers[k].conn.Some? {
      assert PeerOk(w, k);
      if cid == w.peers[k].conn { InHandTurn(w.peers[k], w.links[cid.value], turn, a); }
    }
  }

  lemma StepKeepsHand(w: World, act: Act, v: World, k: nat, a: Address)
    requires WorldOk(w) && Steps(w, act, v) && HandOk(w, k, a)
    requires Proper(w, act, k) && !Forgets(w, act, k, a)
    ensures HandOk(v, k, a)
  {
    if act.Dial? {
      DialKeepsHand(w, act.k, act.up, v, k, a);
    } else if act.Ask? {
      AskKeepsHand(w, act, v, k, a);
    } else if act.Take? {
      TakeKeepsHand(w, act.k, v, k, a);
    } else if act.Stray? {
      StrayKeepsHand(w, act.k, v, k, a);
    } else {
      ServeKeepsHand(w, act.a, act.turn, v, k, a);
    }
  }

  ghost predicate ProperUpTo(worlds: seq<World>, acts: seq<Act>, n: nat, k: nat) {
    IsHistory(worlds, acts) && n < |worlds| && forall i :: 0 <= i < n ==> Proper(worlds[i], acts[i], k)
  }

  lemma {:induction false} HistoryKeepsHand(worlds: seq<World>, acts: seq<Act>, n: nat, k: nat, a: Address)
    requires ProperUpTo(worlds, acts, n, k) && forall i :: 0 <= i < n ==> !Forgets(worlds[i], acts[i], k, a)
    ensures WorldOk(worlds[n]) && HandOk(worlds[n], k, a)
  {
    HistoryKeepsWorld(worlds, acts, n);
    if n > 0 {
      HistoryKeepsHand(worlds, acts, n - 1, k, a);
      StepKeepsHand(worlds[n - 1], acts[n - 1], worlds[n], k, a);
    }
  }

  // ---- when a RELEASE is of something held ----

  /** The daemon handles a RELEASE of the address on a connection that client k made. */
  predicate Frees(w: World, act: Act, k: nat, a: Address) {
    && act.Serve? && act.a.Line? && act.a.request.Release? && act.a.request.url == a
    && act.a.cid < |w.makers| && w.makers[act.a.cid] == k
  }

  lemma FreesHeld(w: World, act: Act, v: World, k: nat, a: Address)
    requires WorldOk(w) && Steps(w, act, v) && HandOk(w, k, a) && Frees(w, act, k, a)
    ensures Honest(w.sys, act.a)
  {
    assert LinkOk(w, act.a.cid);
  }

  /** The event by which honesty is lost. If one client is used properly, a RELEASE that comes from
      it and is of something it does not hold comes only after that same client has connected anew
      while its callers had that same address: whatever the other clients send, and whatever
      connections are dropped in between. */
  lemma HonestyIsLostByForgetting(worlds: seq<World>, acts: seq<Act>, n: nat, k: nat, a: Address)
    requires ProperUpTo(worlds, acts, n, k) && n < |acts|
    requires Frees(worlds[n], acts[n], k, a) && !Honest(worlds[n].sys, acts[n].a)
    ensures exists i :: 0 <= i < n && Forgets(worlds[i], acts[i], k, a)
  {
    if forall i :: 0 <= i < n ==> !Forgets(worlds[i], acts[i], k, a) {
      HistoryKeepsHand(worlds, acts, n, k, a);
      assert Steps(worlds[n], acts[n], worlds[n + 1]);
      FreesHeld(worlds[n], acts[n], worlds[n + 1], k, a);
    }
  }

  /** A client on a greeted connection releases what its callers have and it has forgotten. */
  lemma ForgottenIsDishonest(w: World, k: nat, cmd: Request, seen: Request, v: World, got: Option<Row>)
    requires WorldOk(w) && Asks(w, k, cmd, true, seen, v) && cmd.Release? && cmd.url !in w.peers[k].held
    requires var l := w.links[w.peers[k].conn.value]; Calm(l) && l.open && Hello in l.requests
    ensures var cid := w.peers[k].conn.value;
            Handling(v, cid) && Current(v, cid) == cmd && !Honest(v.sys, Line(cid, cmd, got))
  {
    assert PeerOk(w, k) && LinkOk(w, w.peers[k].conn.value);
    SettledLink(w.peers[k], w.links[w.peers[k].conn.value]);
  }

  /** A client connects anew, and its HELLO is answered. */
  predicate Reconnects(worlds: seq<World>, acts: seq<Act>, k: nat) {
    && |worlds| == 5 && |acts| == 4
    && acts[0] == Act.Dial(k, true) && acts[1] == Ask(k, Hello, true, Hello)
    && acts[2].Serve? && acts[2].a == Line(|worlds[0].links|, Hello, None) && acts[2].turn.Handles? && acts[2].turn.delivered
    && acts[3] == Take(k)
  }

  /** Where client k and its new connection are after each of these steps. */
  predicate CallsIn(w: World, k: nat, cid: nat, lent: seq<Address>, n: nat) {
    && k < |w.peers| && cid < |w.links|
    && var p, l := w.peers[k], w.links[cid];
       && p == Peer(Some(cid), [], if n == 2 || n == 3 then Some(Hello) else None, lent)
       && Calm(l) && l.open
       && l.requests == (if n == 1 then [] else [Hello]) && l.handled == (if n < 3 then 0 else 1)
       && |l.answers| == (if n < 3 then 0 else 1) && l.read == (if n < 4 then 0 else 1)
       && (n >= 3 ==> l.answers[0].Answer? && l.answers[0].reply.Greeting?)
  }

  lemma DialsIn(w: World, k: nat, v: World)
    requires WorldOk(w) && Dials(w, k, true, v)
    ensures WorldOk(v) && CallsIn(v, k, |w.links|, w.peers[k].lent, 1)
  {
    DialKeeps(w, k, true, v);
  }

  lemma SaysHello(w: World, k: nat, v: World, cid: nat, lent: seq<Address>)
    requires WorldOk(w) && CallsIn(w, k, cid, lent, 1) && Asks(w, k, Hello, true, Hello, v)
    ensures WorldOk(v) && CallsIn(v, k, cid, lent, 2)
  {
    AskKeeps(w, k, Hello, true, Hello, v);
  }

  lemma HearsHello(w: World, turn: Turn, v: World, k: nat, cid: nat, lent: seq<Address>)
    requires WorldOk(w) && CallsIn(w, k, cid, lent, 2) && Serves(w, Line(cid, Hello, None), turn, v) && turn.Handles? && turn.delivered
    ensures WorldOk(v) && CallsIn(v, k, cid, lent, 3)
  {
    ServeKeeps(w, Line(cid, Hello, None), turn, v);
    assert Turning(w.sys, Line(cid, Hello, None), v.sys) == Some(cid);
  }

  lemma TakesGreeting(w: World, k: nat, v: World, cid: nat, lent: seq<Address>)
    requires WorldOk(w) && CallsIn(w, k, cid, lent, 3) && Takes(w, k, v)
    ensures WorldOk(v) && CallsIn(v, k, cid, lent, 4)
  {
    TakeKeeps(w, k, v);
  }

  lemma GreetedAnew(worlds: seq<World>, acts: seq<Act>, k: nat)
    requires Reconnects(worlds, acts, k) && WorldOk(worlds[0]) && k < |worlds[0].peers|
    requires forall i :: 0 <= i < 4 ==> Steps(worlds[i], acts[i], worlds[i + 1])
    ensures WorldOk(worlds[4]) && CallsIn(worlds[4], k, |worlds[0].links|, worlds[0].peers[k].lent, 4)
  {
    var cid, lent := |worlds[0].links|, worlds[0].peers[k].lent;
    assert Steps(worlds[0], acts[0], worlds[1]);
    DialsIn(worlds[0], k, worlds[1]);
    assert Steps(worlds[1], acts[1], worlds[2]);
    SaysHello(worlds[1], k, worlds[2], cid, lent);
    assert Steps(worlds[2], acts[2], worlds[3]);
    HearsHello(worlds[2], acts[2].turn, worlds[3], k, cid, lent);
    assert Steps(worlds[3], acts[3], worlds[4]);
    TakesGreeting(worlds[3], k, worlds[4], cid, lent);
  }

  /** And after every such reconnection it is lost: the caller that still has the proxy releases it
      in good faith, and the daemon handles a RELEASE from a connection that does not hold it. */
  lemma ForgettingLosesHonesty(worlds: seq<World>, acts: seq<Act>, k: nat, cmd: Request, seen: Request, v: World, got: Option<Row>)
    requires Reconnects(worlds, acts, k) && WorldOk(worlds[0])
    requires forall i :: 0 <= i < 4 ==> Steps(worlds[i], acts[i], worlds[i + 1])
    requires cmd.Release? && Forgets(worlds[0], acts[0], k, cmd.url) && Asks(worlds[4], k, cmd, true, seen, v)
    ensures Careful(worlds[1], acts[1]) && Careful(worlds[4], Ask(k, cmd, true, seen))
    ensures var cid := |worlds[0].links|;
            Handling(v, cid) && Current(v, cid) == cmd && !Honest(v.sys, Line(cid, cmd, got))
  {
    GreetedAnew(worlds, acts, k);
    ForgottenIsDishonest(worlds[4], k, cmd, seen, v, got);
    assert Steps(worlds[0], acts[0], worlds[1]) && Steps(worlds[1], acts[1], worlds[2]);
  }

  /** In a careful history every RELEASE that the daemon handles is honest. */
  lemma EveryReleaseIsHonest(worlds: seq<World>, acts: seq<Act>, n: nat)
    requires CarefulUpTo(worlds, acts, n) && n < |acts| && acts[n].Serve?
    ensures Honest(worlds[n].sys, acts[n].a)
  {
    HistoryKeepsWorld(worlds, acts, n);
    var w, act := worlds[n], acts[n];
    assert Steps(w, act, worlds[n + 1]);
    if act.a.Line? && act.a.request.Release? && act.a.cid < |w.sys.conns| && !Honest(w.sys, act.a) {
      HonestyIsLostByForgetting(worlds, acts, n, w.makers[act.a.cid], act.a.request.url);
    }
  }

  // ---- the pool and the held lists ----

  /** What the callers have: the client's list, without what is being released. */
  function Owed(p: Peer): seq<Address> {
    if p.asked.Some? && p.asked.value.Release? then EraseFirst(p.held, p.asked.value.url) else p.held
  }

  predicate OwedOk(w: World) { forall k :: 0 <= k < |w.peers| ==> w.peers[k].lent == Owed(w.peers[k]) }

  /** What every state of a careful history is. */
  ghost predicate AllOk(w: World) {
    && WorldOk(w) && Exclusive(w.sys) && OwedOk(w)
    && forall k: nat, a :: HandOk(w, k, a)
  }

  lemma StepKeepsOwed(w: World, act: Act, v: World)
    requires OwedOk(w) && Steps(w, act, v) && Careful(w, act)
    ensures OwedOk(v)
  {
  }

  lemma StepKeepsExclusiveWorld(w: World, act: Act, v: World)
    requires Inv(w.sys) && Exclusive(w.sys) && Steps(w, act, v) && (act.Serve? ==> Honest(w.sys, act.a))
    ensures Exclusive(v.sys)
  {
    if act.Dial? && act.up {
      StepKeepsExclusive(w.sys, Accept, v.sys);
    } else if act.Serve? {
      StepKeepsExclusive(w.sys, act.a, v.sys);
    }
  }

  lemma {:induction false} HistoryKeepsAll(worlds: seq<World>, acts: seq<Act>, n: nat)
    requires CarefulUpTo(worlds, acts, n)
    ensures AllOk(worlds[n])
  {
    HistoryKeepsWorld(worlds, acts, n);
    forall k: nat, a
      ensures HandOk(worlds[n], k, a)
    {
      HistoryKeepsHand(worlds, acts, n, k, a);
    }
    if n == 0 {
      assert BusyAddresses(worlds[0].sys.rows) == {};
    } else {
      HistoryKeepsAll(worlds, acts, n - 1);
      if acts[n - 1].Serve? { EveryReleaseIsHonest(worlds, acts, n - 1); }
      StepKeepsExclusiveWorld(worlds[n - 1], acts[n - 1], worlds[n]);
      StepKeepsOwed(worlds[n - 1], acts[n - 1], worlds[n]);
    }
  }

  predicate Holds(s: Sys, i: nat, url: Address) { i < |s.conns| && s.conns[i].open && url in s.conns[i].held }

  ghost predicate OneToOne(s: Sys) {
    && (forall url :: url in BusyAddresses(s.rows) <==> exists i: nat :: Holds(s, i, url))
    && (forall i: nat, j: nat, url :: Holds(s, i, url) && Holds(s, j, url) ==> i == j && Times(s.conns[i].held, url) == 1)
  }

  /** With the program's own clients, and connections dropped at any moment, busy rows and holders
      match one to one in every state; and between two requests of the daemon that is: a row is busy
      exactly if an open connection has it on its list, no other has, and that one once. */
  lemma BusyMatchesHeld(worlds: seq<World>, acts: seq<Act>, n: nat)
    requires CarefulUpTo(worlds, acts, n)
    ensures Exclusive(worlds[n].sys)
    ensures worlds[n].sys.poll.Idle? ==> OneToOne(worlds[n].sys)
  {
    HistoryKeepsAll(worlds, acts, n);
    var s := worlds[n].sys;
    if s.poll.Idle? {
      forall i: nat, j: nat, url | Holds(s, i, url) && Holds(s, j, url)
        ensures i == j && Times(s.conns[i].held, url) == 1 && url in BusyAddresses(s.rows)
      {
        HeldOnce(s, i, j, url);
      }
      forall url | url in BusyAddresses(s.rows)
        ensures exists i: nat :: Holds(s, i, url)
      {
        var i := HolderOf(s, url);
        assert Holds(s, i, url);
      }
    }
  }

  // ---- connections that are dropped under a client ----

  /** Nothing is in hand or on its way. */
  predicate EmptyHanded(p: Peer, l: Link) { p.lent == [] && !LeaseComing(p, l) }

  /** The daemon drops a connection while its client's callers have something, or are about to. */
  ghost predicate Severs(act: Act, v: World) {
    && act.Serve? && v.sys.poll.Dropping? && v.sys.poll.cid < |v.links|
    && exists k :: 0 <= k < |v.peers| && v.peers[k].conn == Some(v.sys.poll.cid)
                   && !EmptyHanded(v.peers[k], v.links[v.sys.poll.cid])
  }

  predicate ConnectedAt(w: World, k: nat)
    requires k < |w.peers|
  {
    match w.peers[k].conn
    case None => w.peers[k].lent == []
    case Some(i) => i < |w.links| && (w.links[i].open || EmptyHanded(w.peers[k], w.links[i]))
  }

  /** Whoever has something is still connected. */
  predicate Connected(w: World) { forall k :: 0 <= k < |w.peers| ==> ConnectedAt(w, k) }

  lemma AskStaysConnected(p: Peer, l: Link, cmd: Request, at: Attempt)
    requires Paired(p, l) && Calm(l) && p.asked.None? && EmptyHanded(p, l)
    requires cmd.Release? ==> cmd.url in p.lent
    ensures EmptyHanded(AfterAsk(p, cmd, at.written), Written(l, cmd, at))
  {
    SettledLink(p, l);
  }

  lemma ClientStaysConnected(w: World, act: Act, v: World, k: nat)
    requires AllOk(w) && Connected(w) && Steps(w, act, v) && Careful(w, act) && !act.Serve? && k == act.k && k < |v.peers|
    ensures ConnectedAt(v, k)
  {
    assert ConnectedAt(w, k) && PeerOk(w, k) && HandOk(w, k, "");
    if !act.Dial? {
      var p, l := w.peers[k], w.links[w.peers[k].conn.value];
      if act.Ask? && !l.open {
        AskStaysConnected(p, l, act.cmd, Attempt(act.written, act.seen, []));
      } else if act.Take? && !l.open {
        TakeStaysConnected(p, l);
      }
    }
  }

  lemma OtherStaysConnected(w: World, act: Act, v: World, k: nat)
    requires AllOk(w) && Connected(w) && Steps(w, act, v) && !act.Serve? && k != act.k && k < |v.peers|
    ensures ConnectedAt(v, k)
  {
    assert ConnectedAt(w, k) && PeerOk(w, k) && PeerOk(w, act.k);
  }

  lemma TakeStaysConnected(p: Peer, l: Link)
    requires Paired(p, l) && Calm(l) && p.asked.Some? && EmptyHanded(p, l)
    ensures AfterTake(p, Taken(l).1).lent == []
  {
    if l.read < |l.answers| {
      OwnAnswer(p, l);
      AnswerAgrees(l.answers[l.read], p.held, p.asked.value);
    }
  }

  /** A turn that closes a connection begins a drop. */
  lemma ClosingIsDropping(w: World, a: Action, turn: Turn, v: World, cid: nat)
    requires AllOk(w) && Serves(w, a, turn, v) && Turning(w.sys, a, v.sys) == Some(cid) && cid < |w.links|
    requires w.links[cid].open && !v.links[cid].open
    ensures v.sys.poll.Dropping? && v.sys.poll.cid == cid
  {
    assert LinkOk(w, cid) && HandOk(w, w.makers[cid], "");
  }

  lemma ServedStaysConnected(w: World, act: Act, v: World, k: nat)
    requires AllOk(w) && Connected(w) && Steps(w, act, v) && act.Serve? && !Severs(act, v) && k < |v.peers|
    ensures ConnectedAt(v, k)
  {
    assert ConnectedAt(w, k) && PeerOk(w, k);
    var cid := Turning(w.sys, act.a, v.sys);
    if cid.Some? && cid == w.peers[k].conn && w.links[cid.value].open && !v.links[cid.value].open {
      ClosingIsDropping(w, act.a, act.turn, v, cid.value);
    }
  }

  lemma {:induction false} HistoryStaysConnected(worlds: seq<World>, acts: seq<Act>, n: nat)
    requires CarefulUpTo(worlds, acts, n) && forall i :: 0 <= i < n ==> !Severs(acts[i], worlds[i + 1])
    ensures Connected(worlds[n])
  {
    if n > 0 {
      HistoryStaysConnected(worlds, acts, n - 1);
      HistoryKeepsAll(worlds, acts, n - 1);
      var w, act, v := worlds[n - 1], acts[n - 1], worlds[n];
      assert Steps(w, act, v) && Careful(w, act);
      forall k | 0 <= k < |v.peers|
        ensures ConnectedAt(v, k)
      {
        if act.Serve? {
          ServedStaysConnected(w, act, v, k);
        } else if act.k == k {
          ClientStaysConnected(w, act, v, k);
        } else {
          OtherStaysConnected(w, act, v, k);
        }
      }
    }
  }

  // ---- in whose hands a proxy is ----

  /** What client k's callers have of the address, with what is on its way to them. */
  function Hand(w: World, k: nat, a: Address): nat
    requires k < |w.peers|
  {
    var p := w.peers[k];
    Times(p.lent, a)
    + Bit(HasLink(w, k) && Coming(p, w.links[p.conn.value], a))
    + Bit(w.sys.poll.Granted? && p.conn == Some(w.sys.poll.cid) && w.sys.poll.url == a)
  }

  /** The address is in the hands of one client at most, and there once. */
  predicate Apart(w: World, a: Address) {
    forall k, m :: 0 <= k < |w.peers| && 0 <= m < |w.peers| && Hand(w, k, a) > 0 && Hand(w, m, a) > 0
                   ==> k == m && Hand(w, k, a) == 1
  }

  /** The step leases the address. */
  predicate Grants(w: World, act: Act, v: World, a: Address) {
    act.Serve? && act.a.Line? && v.sys.poll.Granted? && v.sys.poll.url == a
  }

  lemma DroppedPart(held: seq<Address>, done: nat, url: Address)
    requires done <= |held|
    ensures Times(held[..done], url) <= Times(held, url)
  {
    assert held == held[..done] + held[done..];
  }

  /** An entry of an open connection that nobody is dropping is a claim, unless it is being erased. */
  lemma EntryIsClaim(w: World, i: nat, url: Address)
    requires WorldOk(w) && i < |w.links| && w.links[i].open
    requires Times(w.links[i].held, url) >= 1 + Bit(Leaving(w.links[i], url))
    ensures |w.links| == |w.sys.conns| && Claims(w.sys, url) >= 1
  {
    var s := w.sys;
    assert LinkOk(w, i);
    OwnCount(s.conns, i, url);
    if s.poll.Freed? && s.poll.cid != i && url == s.poll.url && url in s.conns[s.poll.cid].held {
      TwoCounts(s.conns, i, s.poll.cid, url);
    } else if s.poll.Dropping? {
      TwoCounts(s.conns, i, s.poll.cid, url);
      DroppedPart(s.conns[s.poll.cid].held, s.poll.done, url);
    }
  }

  lemma GrantedIsClaim(s: Sys, a: Address)
    requires s.poll.Granted? && s.poll.url == a
    ensures Claims(s, a) >= 1
  {
    SumNonNegative(HeldCounts(s.conns, a));
  }

  /** What is in the hands of a client that is still connected is busy. */
  lemma HandIsBusy(w: World, k: nat, a: Address)
    requires AllOk(w) && k < |w.peers| && Hand(w, k, a) > 0
    requires HasLink(w, k) ==> w.links[w.peers[k].conn.value].open || ConnectedAt(w, k)
    ensures a in BusyAddresses(w.sys.rows)
  {
    assert PeerOk(w, k) && HandOk(w, k, a);
    assert Claims(w.sys, a) == Bit(a in BusyAddresses(w.sys.rows));
    if w.sys.poll.Granted? && w.sys.poll.url == a {
      GrantedIsClaim(w.sys, a);
    } else {
      EntryIsClaim(w, w.peers[k].conn.value, a);
    }
  }

  lemma AskLowersHand(p: Peer, l: Link, cmd: Request, at: Attempt, a: Address)
    requires Paired(p, l) && Calm(l) && p.asked.None?
    ensures var q := AfterAsk(p, cmd, at.written);
            Times(q.lent, a) <= Times(p.lent, a) && !Coming(q, Written(l, cmd, at), a)
  {
    SettledLink(p, l);
    if cmd.Release? { EraseFirstCount(p.lent, cmd.url, a); }
  }

  lemma ClientLowersHand(w: World, act: Act, v: World, k: nat, a: Address)
    requires AllOk(w) && Steps(w, act, v) && Careful(w, act) && !act.Serve? && k == act.k && k < |w.peers|
    ensures |v.peers| == |w.peers| && Hand(v, k, a) <= Hand(w, k, a)
  {
    assert PeerOk(w, k) && HandOk(w, k, a);
    if !act.Dial? {
      var p, l := w.peers[k], w.links[w.peers[k].conn.value];
      if act.Ask? {
        AskLowersHand(p, l, act.cmd, Attempt(act.written, act.seen, []), a);
      } else if act.Take? {
        TakeLowersHand(p, l, a);
      }
    }
  }

  lemma OtherHandStays(w: World, act: Act, v: World, k: nat, a: Address)
    requires AllOk(w) && Steps(w, act, v) && !act.Serve? && k != act.k && k < |w.peers|
    ensures |v.peers| == |w.peers| && Hand(v, k, a) == Hand(w, k, a)
  {
    assert PeerOk(w, k) && PeerOk(w, act.k);
  }

  lemma TakeLowersHand(p: Peer, l: Link, a: Address)
    requires Paired(p, l) && Calm(l) && p.asked.Some?
    ensures Times(AfterTake(p, Taken(l).1).lent, a) <= Times(p.lent, a) + Bit(Coming(p, l, a))
  {
    if l.read < |l.answers| {
      OwnAnswer(p, l);
      AnswerAgrees(l.answers[l.read], p.held, p.asked.value);
    }
  }

  lemma ServeLowersHand(w: World, act: Act, v: World, k: nat, a: Address)
    requires AllOk(w) && Steps(w, act, v) && act.Serve? && k < |w.peers|
    ensures |v.peers| == |w.peers|
    ensures Hand(v, k, a)
            <= Hand(w, k, a) + Bit(Grants(w, act, v, a) && w.peers[k].conn == Some(v.sys.poll.cid))
  {
    assert PeerOk(w, k) && HandOk(w, k, a);
    var cid := Turning(w.sys, act.a, v.sys);
    if cid.Some? && cid == w.peers[k].conn {
      TurnedComing(w.peers[k], w.links[cid.value], act.turn, a);
    }
  }

  lemma GrantsIdle(w: World, act: Act, v: World, a: Address)
    requires WorldOk(w) && Steps(w, act, v) && Grants(w, act, v, a)
    ensures !w.sys.stopping && a !in BusyAddresses(w.sys.rows)
  {
    AcquireMoves(w.sys, act.a.cid, act.a.request.skip, act.a.got, v.sys);
  }

  lemma GrantRaisesHand(w: World, act: Act, v: World, k: nat, a: Address)
    requires Steps(w, act, v) && Grants(w, act, v, a) && k < |w.peers|
    ensures v.peers == w.peers && Hand(v, k, a) == Hand(w, k, a) + Bit(w.peers[k].conn == Some(v.sys.poll.cid))
  {
  }

  lemma LowersHand(w: World, act: Act, v: World, k: nat, a: Address)
    requires AllOk(w) && Steps(w, act, v) && Careful(w, act) && !Grants(w, act, v, a) && k < |w.peers|
    ensures |v.peers| == |w.peers| && Hand(v, k, a) <= Hand(w, k, a)
  {
    if act.Serve? {
      ServeLowersHand(w, act, v, k, a);
    } else if act.k == k {
      ClientLowersHand(w, act, v, k, a);
    } else {
      OtherHandStays(w, act, v, k, a);
    }
  }

  /** The step leases to a client an address that some client's callers still have. */
  predicate LeasesAgain(w: World, act: Act, v: World, a: Address) {
    && Grants(w, act, v, a)
    && (exists k :: 0 <= k < |w.peers| && Hand(w, k, a) > 0)
    && (exists m :: 0 <= m < |w.peers| && w.peers[m].conn == Some(v.sys.poll.cid))
  }

  /** The one step by which an address gets into two hands. */
  lemma StepKeepsApartExactly(w: World, act: Act, v: World, a: Address)
    requires AllOk(w) && Steps(w, act, v) && Careful(w, act) && Apart(w, a)
    ensures Apart(v, a) <==> !LeasesAgain(w, act, v, a)
  {
    if Grants(w, act, v, a) {
      forall k | 0 <= k < |w.peers|
        ensures v.peers == w.peers && Hand(v, k, a) == Hand(w, k, a) + Bit(w.peers[k].conn == Some(v.sys.poll.cid))
        ensures PeerOk(w, k)
      {
        GrantRaisesHand(w, act, v, k, a);
      }
    } else {
      forall k | 0 <= k < |w.peers|
        ensures |v.peers| == |w.peers| && Hand(v, k, a) <= Hand(w, k, a)
      {
        LowersHand(w, act, v, k, a);
      }
    }
  }

  /** It leases again only what was in the hands of a client that had been dropped. */
  lemma LeasedAgainWasSevered(w: World, act: Act, v: World, a: Address, k: nat)
    requires AllOk(w) && Steps(w, act, v) && Grants(w, act, v, a) && k < |w.peers| && Hand(w, k, a) > 0
    ensures HasLink(w, k) && !w.links[w.peers[k].conn.value].open && !w.sys.stopping
  {
    GrantsIdle(w, act, v, a);
    assert PeerOk(w, k) && HandOk(w, k, a);
    if w.peers[k].conn.None? || w.links[w.peers[k].conn.value].open { HandIsBusy(w, k, a); }
  }

  lemma {:induction false} StoppingStays(worlds: seq<World>, acts: seq<Act>, i: nat, n: nat)
    requires IsHistory(worlds, acts) && i <= n < |worlds| && worlds[i].sys.stopping
    ensures worlds[n].sys.stopping
  {
    if i < n {
      StoppingStays(worlds, acts, i, n - 1);
      assert Steps(worlds[n - 1], acts[n - 1], worlds[n]);
    }
  }

  /** The daemon drops a connection under a client that has something only once it is stopping. */
  ghost predicate GentleUpTo(worlds: seq<World>, acts: seq<Act>, n: nat) {
    && CarefulUpTo(worlds, acts, n)
    && forall i :: 0 <= i < n ==> Severs(acts[i], worlds[i + 1]) ==> worlds[i + 1].sys.stopping
  }

  lemma GentleIsConnected(worlds: seq<World>, acts: seq<Act>, n: nat)
    requires GentleUpTo(worlds, acts, n) && !worlds[n].sys.stopping
    ensures Connected(worlds[n])
  {
    forall i | 0 <= i < n
      ensures !Severs(acts[i], worlds[i + 1])
    {
      if worlds[i + 1].sys.stopping { StoppingStays(worlds, acts, i + 1, n); }
    }
    HistoryStaysConnected(worlds, acts, n);
  }

  lemma NoneIsLeasedAgain(w: World, act: Act, v: World, a: Address)
    requires AllOk(w) && Connected(w) && Steps(w, act, v) && Grants(w, act, v, a)
    ensures forall k :: 0 <= k < |w.peers| ==> Hand(w, k, a) == 0
  {
    forall k | 0 <= k < |w.peers|
      ensures Hand(w, k, a) == 0
    {
      assert ConnectedAt(w, k);
      if Hand(w, k, a) > 0 { LeasedAgainWasSevered(w, act, v, a, k); }
    }
  }

  lemma {:induction false} HistoryKeepsApart(worlds: seq<World>, acts: seq<Act>, n: nat, a: Address)
    requires GentleUpTo(worlds, acts, n)
    ensures Apart(worlds[n], a)
  {
    if n > 0 {
      var w, act, v := worlds[n - 1], acts[n - 1], worlds[n];
      HistoryKeepsApart(worlds, acts, n - 1, a);
      HistoryKeepsAll(worlds, acts, n - 1);
      assert Steps(w, act, v) && Careful(w, act);
      StepKeepsApartExactly(w, act, v, a);
      if LeasesAgain(w, act, v, a) {
        GrantsIdle(w, act, v, a);
        GentleIsConnected(worlds, acts, n - 1);
        NoneIsLeasedAgain(w, act, v, a);
      }
    }
  }

  // ---- the theorems ----

  predicate IsConnected(w: World, k: nat) { HasLink(w, k) && w.links[w.peers[k].conn.value].open }

  /** In every state, with refreshes, target tests and requests in progress and while the daemon
      stops, no proxy is in the hands of two clients' callers, nor twice in those of one; and one in
      the hands of a client whose connection is open, as it is until the daemon stops, is busy. */
  lemma OneHandPerProxy(worlds: seq<World>, acts: seq<Act>, n: nat, url: Address)
    requires GentleUpTo(worlds, acts, n)
    ensures var w := worlds[n];
            && (forall k, m :: 0 <= k < |w.peers| && 0 <= m < |w.peers| && url in w.peers[k].lent && url in w.peers[m].lent
                  ==> k == m && Times(w.peers[k].lent, url) == 1)
            && (forall k :: 0 <= k < |w.peers| && url in w.peers[k].lent ==>
                  && HasLink(w, k)
                  && (!w.sys.stopping ==> IsConnected(w, k))
                  && (IsConnected(w, k) ==> url in BusyAddresses(w.sys.rows)))
  {
    HistoryKeepsApart(worlds, acts, n, url);
    HistoryKeepsAll(worlds, acts, n);
    var w := worlds[n];
    if !w.sys.stopping { GentleIsConnected(worlds, acts, n); }
    forall k | 0 <= k < |w.peers| && url in w.peers[k].lent
      ensures Hand(w, k, url) >= Times(w.peers[k].lent, url) > 0 && HasLink(w, k)
      ensures !w.sys.stopping ==> IsConnected(w, k)
      ensures IsConnected(w, k) ==> url in BusyAddresses(w.sys.rows)
    {
      assert HandOk(w, k, url) && PeerOk(w, k);
      assert !w.sys.stopping ==> ConnectedAt(w, k);
      if IsConnected(w, k) { HandIsBusy(w, k, url); }
    }
  }

  /** Nothing is in progress: no request, no critical section, no connection without its client, and
      every answer on the clients' connections came in time. */
  predicate AtRest(w: World) {
    && w.sys.poll.Idle?
    && (forall k :: 0 <= k < |w.peers| ==>
          w.peers[k].asked.None? && (HasLink(w, k) ==> Calm(w.links[w.peers[k].conn.value])))
    && (forall j :: 0 <= j < |w.links| && w.links[j].open ==>
          exists k :: 0 <= k < |w.peers| && w.peers[k].conn == Some(j))
  }

  /** Client k has the address on its list, and its connection is open. */
  predicate Lists(w: World, k: nat, url: Address) { IsConnected(w, k) && url in w.peers[k].held }

  lemma ListsIsHeld(w: World, k: nat, url: Address)
    requires AllOk(w) && AtRest(w) && Lists(w, k, url)
    ensures w.peers[k].conn.value < |w.sys.conns| && w.sys.conns[w.peers[k].conn.value].held == w.peers[k].held
  {
    assert PeerOk(w, k) && LinkOk(w, w.peers[k].conn.value);
  }

  lemma BusyHasClient(w: World, url: Address)
    requires AllOk(w) && AtRest(w) && url in BusyAddresses(w.sys.rows)
    ensures exists k :: 0 <= k < |w.peers| && Lists(w, k, url)
  {
    var j := HolderOf(w.sys, url);
    assert LinkOk(w, j);
    var k :| 0 <= k < |w.peers| && w.peers[k].conn == Some(j);
    assert PeerOk(w, k);
    assert Lists(w, k, url);
  }

  /** At rest in a careful history the busy rows of the pool match the entries of the connected
      clients' lists one to one, and callers have in hand what their clients list; all clients that
      list something are connected if no connection was dropped under one. */
  lemma BusyIsHeldOnce(worlds: seq<World>, acts: seq<Act>, n: nat, url: Address)
    requires CarefulUpTo(worlds, acts, n) && AtRest(worlds[n])
    ensures var w := worlds[n];
            && (url in BusyAddresses(w.sys.rows) <==> exists k :: 0 <= k < |w.peers| && Lists(w, k, url))
            && (forall k, m :: 0 <= k < |w.peers| && 0 <= m < |w.peers| && Lists(w, k, url) && Lists(w, m, url)
                  ==> k == m && Times(w.peers[k].held, url) == 1)
            && (forall k :: 0 <= k < |w.peers| ==> w.peers[k].lent == w.peers[k].held)
            && ((forall i :: 0 <= i < n ==> !Severs(acts[i], worlds[i + 1])) ==>
                  forall k :: 0 <= k < |w.peers| && url in w.peers[k].held ==> Lists(w, k, url))
  {
    HistoryKeepsAll(worlds, acts, n);
    var w := worlds[n];
    forall k, m | 0 <= k < |w.peers| && 0 <= m < |w.peers| && Lists(w, k, url) && Lists(w, m, url)
      ensures k == m && Times(w.peers[k].held, url) == 1 && url in BusyAddresses(w.sys.rows)
    {
      ListsIsHeld(w, k, url);
      ListsIsHeld(w, m, url);
      assert PeerOk(w, k) && PeerOk(w, m);
      HeldOnce(w.sys, w.peers[k].conn.value, w.peers[m].conn.value, url);
    }
    if url in BusyAddresses(w.sys.rows) { BusyHasClient(w, url); }
    if forall i :: 0 <= i < n ==> !Severs(acts[i], worlds[i + 1]) {
      HistoryStaysConnected(worlds, acts, n);
      forall k | 0 <= k < |w.peers| && url in w.peers[k].held
        ensures Lists(w, k, url)
      {
        assert ConnectedAt(w, k);
      }
    }
  }
}
