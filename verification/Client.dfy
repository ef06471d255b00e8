/** The client's end of a connection (src/proxy_ipc.cpp:311-339, 398-442, 502-580): which answer
    goes with which request, and whether both ends agree on what is leased. */
module Client {
  import opened Wrappers
  import opened ProxyPool
  import opened Protocol
  import opened LeaseSystem

  const VERSION := "1.1"

  /** A line that the daemon has written: an answer, with the position of the request it answers,
      or what a stopping daemon tells every connection before it closes it. */
  datatype Answer = Answer(to: nat, reply: Reply, number: string) | Farewell {
    function Words(): seq<string> {
      match this
      case Answer(_, reply, number) => ReplyWords(reply, VERSION, number)
      case Farewell => ReplyWords(ShuttingDown, VERSION, "")
    }
  }

  /** One connection, seen from both ends. `requests` are what the daemon makes of the lines on it:
      before HELLO every other line is one that it answers with an error and hangs up on. `misses` counts the requests that the client stopped
      waiting for, less the answers to them that it has taken by a stray read; `cut` says that a
      write once failed part of the way. */
  datatype Link = Link(
    requests: seq<Request>,
    answers: seq<Answer>,
    handled: nat,
    read: nat,       // answers that the client has taken
    misses: nat,
    cut: bool,
    open: bool,
    farewell: bool,  // said, and not taken by the client
    held: seq<Address>)
  {
    /** The requests that were handled, but whose answer could not be written. */
    function Lost(): int { handled - |answers| }
  }

  /** A connection on which nothing was said. */
  function Fresh(open: bool): Link { Link([], [], 0, 0, 0, false, open, false, []) }

  /** What the daemon does: handle the next line of this connection, or drop it. */
  datatype Turn =
    | Handles(reply: Reply, number: string, delivered: bool)
    | HangsUp(farewell: bool)

  function Turned(l: Link, turn: Turn): Link {
    if !l.open then l
    else if turn.HangsUp? then l.(open := false, farewell := turn.farewell, held := [])
    else if l.handled >= |l.requests| || !Fits(l.requests[l.handled], turn.reply) then l
    else
      var request := l.requests[l.handled];
      var spoken := turn.delivered && !turn.reply.Silence?;
      var stays := !request.Malformed? && (turn.reply.Lease? ==> turn.delivered);
      l.(handled := l.handled + 1,
         answers := if spoken then l.answers + [Answer(l.handled, turn.reply, turn.number)] else l.answers,
         open := stays,
         held := if stays then HeldAfter(l.held, request, turn.reply) else [])
  }

  function Play(l: Link, turns: seq<Turn>): Link
    decreases |turns|
  {
    if turns == [] then l else Play(Turned(l, turns[0]), turns[1..])
  }

  /** How one request fares: whether it is written, what the daemon reads if an earlier write was
      cut short, and what the daemon does before the client reads or gives up. */
  datatype Attempt = Attempt(written: bool, seen: Request, turns: seq<Turn>)

  /** What the daemon will make of the line. */
  function Heard(l: Link, cmd: Request, at: Attempt): Request {
    Gated(Hello in l.requests, if l.cut then at.seen else cmd)
  }

  function Written(l: Link, cmd: Request, at: Attempt): Link {
    if at.written then l.(requests := l.requests + [Heard(l, cmd, at)]) else l.(cut := true)
  }

  function Asked(l: Link, cmd: Request, at: Attempt): Link { Play(Written(l, cmd, at), at.turns) }

  /** The client reads: it takes the first line that it has not taken, or gives the request up. */
  function Taken(l: Link): (Link, Option<Answer>) {
    if l.read < |l.answers| then (l.(read := l.read + 1), Some(l.answers[l.read]))
    else if l.farewell then (l.(farewell := false, misses := l.misses + 1), Some(Farewell))
    else (l.(misses := l.misses + 1), None)
  }

  /** One write and one read. */
  function Exchange(l: Link, cmd: Request, at: Attempt): (Link, Option<Answer>) {
    if at.written then Taken(Asked(l, cmd, at)) else (Asked(l, cmd, at), None)
  }

  /** A read without a request: what it takes can only be the answer to one that was given up. */
  function StrayRead(l: Link): Link {
    if l.read < |l.answers| then l.(read := l.read + 1, misses := if l.misses > 0 then l.misses - 1 else 0)
    else l.(farewell := false)
  }

  /** The keepalive thread's PING: it reads a line even if the PING could not be written. */
  function Pinged(l: Link, at: Attempt): Link {
    if at.written then Exchange(l, Ping, at).0 else StrayRead(Asked(l, Ping, at))
  }

  /** The lease that the client sees in a line. */
  function LeaseOf(got: Option<Answer>): Option<Address> {
    if got.Some? then LeaseIn(got.value.Words()) else None
  }

  /** The client's list after a request, however it fared: an ACQUIRE adds what it sees, a RELEASE
      removes an entry in any case. */
  function AfterAnswer(held: seq<Address>, cmd: Request, got: Option<Answer>): seq<Address> {
    if cmd.Acquire? && LeaseOf(got).Some? then held + [LeaseOf(got).value]
    else if cmd.Release? then EraseFirst(held, cmd.url)
    else held
  }

  /** The answers to a line that the client meant as the request: also those to one that says HELLO
      twice, or comes before it. */
  predicate Answers(cmd: Request, reply: Reply) {
    Fits(cmd, reply) || reply.ProtocolError? || (cmd.Hello? && reply.UnknownCommand?)
  }

  lemma GatedAnswers(greeted: bool, cmd: Request, reply: Reply)
    requires Fits(Gated(greeted, cmd), reply)
    ensures Answers(cmd, reply)
    ensures Admitted(greeted, cmd) ==> Fits(cmd, reply)
  {
  }

  /** If the line is an answer to the request, the daemon's list changes in the same way. */
  lemma AnswerAgrees(a: Answer, held: seq<Address>, cmd: Request)
    requires a.Answer? && Answers(cmd, a.reply)
    ensures HeldAfter(held, cmd, a.reply) == AfterAnswer(held, cmd, Some(a))
    ensures cmd.Acquire? ==> LeaseOf(Some(a)) == if a.reply.Lease? then Some(a.reply.url) else None
  {
  }

  // ---- which answer goes with which request ----

  predicate Sound(l: Link) {
    && l.read <= |l.answers| && |l.answers| <= l.handled <= |l.requests|
    && (!l.open ==> l.held == [])
    && forall i {:trigger AnswerOk(l, i)} :: 0 <= i < |l.answers| ==> AnswerOk(l, i)
  }

  predicate AnswerOk(l: Link, i: nat)
    requires i < |l.answers|
  {
    var a := l.answers[i];
    a.Answer? && i <= a.to <= i + l.Lost() && a.to < |l.requests| && Fits(l.requests[a.to], a.reply)
  }

  /** Between two requests of the client: every request was answered or given up. */
  predicate Quiet(l: Link) { Sound(l) && |l.requests| == l.read + l.misses }

  /** Every request on this connection was written, and got its answer in time. */
  predicate Calm(l: Link) { l.misses == 0 && !l.cut }

  lemma TurnedSound(l: Link, turn: Turn)
    requires Sound(l)
    ensures Sound(Turned(l, turn))
  {
    var m := Turned(l, turn);
    forall i | 0 <= i < |m.answers| ensures AnswerOk(m, i) {
      assert i < |l.answers| ==> AnswerOk(l, i);
    }
  }

  /** What the daemon never touches, and that it does not reopen a connection. */
  predicate SameClient(l: Link, m: Link) {
    && m.requests == l.requests && m.read == l.read && m.misses == l.misses && m.cut == l.cut
    && (m.open ==> l.open)
  }

  lemma {:induction false} PlaySound(l: Link, turns: seq<Turn>)
    requires Sound(l)
    ensures Sound(Play(l, turns)) && SameClient(l, Play(l, turns))
    decreases |turns|
  {
    if turns != [] {
      TurnedSound(l, turns[0]);
      PlaySound(Turned(l, turns[0]), turns[1..]);
    }
  }

  lemma WrittenSound(l: Link, cmd: Request, at: Attempt)
    requires Sound(l)
    ensures Sound(Written(l, cmd, at))
  {
    var n := Written(l, cmd, at);
    forall i | 0 <= i < |n.answers| ensures AnswerOk(n, i) {
      assert AnswerOk(l, i);
    }
  }

  lemma AskedSound(l: Link, cmd: Request, at: Attempt)
    requires Sound(l)
    ensures Sound(Asked(l, cmd, at)) && SameClient(Written(l, cmd, at), Asked(l, cmd, at))
  {
    WrittenSound(l, cmd, at);
    PlaySound(Written(l, cmd, at), at.turns);
  }

  /** Soundness does not depend on what the client has read and counted. */
  lemma ClientSideIsFree(m: Link, n: Link)
    requires Sound(m) && n.read <= |n.answers|
    requires n.requests == m.requests && n.answers == m.answers && n.handled == m.handled
    requires n.open == m.open && n.held == m.held
    ensures Sound(n)
  {
    forall i | 0 <= i < |n.answers| ensures AnswerOk(n, i) {
      assert AnswerOk(m, i);
    }
  }

  lemma ExchangeQuiet(l: Link, cmd: Request, at: Attempt)
    requires Quiet(l)
    ensures Quiet(Exchange(l, cmd, at).0)
  {
    AskedSound(l, cmd, at);
    ClientSideIsFree(Asked(l, cmd, at), Exchange(l, cmd, at).0);
  }

  /** A PING that could not be written leaves every request answered or given up; the connection is
      calm no more. */
  lemma PingedQuiet(l: Link, at: Attempt)
    requires Quiet(l)
    ensures Quiet(Pinged(l, at)) && (!at.written ==> !Calm(Pinged(l, at)))
    ensures !at.written ==> var m := Pinged(l, at); m.requests == l.requests && m.read == Min(l.read + 1, |m.answers|)
  {
    if at.written {
      ExchangeQuiet(l, Ping, at);
    } else {
      AskedSound(l, Ping, at);
      ClientSideIsFree(Asked(l, Ping, at), Pinged(l, at));
    }
  }

  /** The answer that a request gets was meant for the request `misses` places before it, or, if
      the daemon failed to write some answers, for one at most that many places after. */
  lemma AnswersLag(l: Link, cmd: Request, at: Attempt)
    requires Quiet(l)
    ensures var (m, got) := Exchange(l, cmd, at);
            && Quiet(m)
            && (got.Some? && got.value.Answer? ==>
                  && 0 <= |l.requests| - l.misses <= got.value.to <= |l.requests| - l.misses + m.Lost()
                  && got.value.to <= |l.requests|)
  {
    ExchangeQuiet(l, cmd, at);
    AskedSound(l, cmd, at);
    var m := Asked(l, cmd, at);
    if at.written && m.read < |m.answers| {
      assert AnswerOk(m, m.read);
    }
  }

  /** A request gets its own answer exactly if no earlier one was given up; unless the daemon could
      not write as many answers as were given up. */
  lemma OwnAnswerExactly(l: Link, cmd: Request, at: Attempt)
    requires Quiet(l)
    ensures var (m, got) := Exchange(l, cmd, at);
            got.Some? && got.value.Answer? && m.Lost() == 0 ==> (got.value.to == |l.requests| <==> l.misses == 0)
    ensures var (m, got) := Exchange(l, cmd, at);
            got.Some? && got.value.Answer? && l.misses == 0 ==> got.value.to == |l.requests|
    ensures var (m, got) := Exchange(l, cmd, at);
            got.Some? && got.value.Answer? && got.value.to == |l.requests| ==> l.misses <= m.Lost()
  {
    AnswersLag(l, cmd, at);
  }

  // ---- agreement ----

  /** Where a connection can be whose earlier requests are settled and whose only open one is cmd. */
  predicate Underway(l: Link, cmd: Request, m: Link) {
    || (m.handled == |l.requests| && m.answers == l.answers && (m.open ==> m.held == l.held))
    || (m.handled == |l.requests| + 1 && m.answers == l.answers)
    || (m.handled == |l.requests| + 1 && |m.answers| == |l.answers| + 1 && m.answers[..|l.answers|] == l.answers
        && m.answers[|l.answers|].Answer? && Fits(cmd, m.answers[|l.answers|].reply)
        && (m.open ==> !cmd.Malformed? && m.held == HeldAfter(l.held, cmd, m.answers[|l.answers|].reply)))
  }

  lemma UnderwayTurn(l: Link, cmd: Request, m: Link, turn: Turn)
    requires m.requests == l.requests + [cmd] && Underway(l, cmd, m)
    ensures Underway(l, cmd, Turned(m, turn)) && Turned(m, turn).requests == m.requests
  {
  }

  lemma {:induction false} UnderwayPlay(l: Link, cmd: Request, m: Link, turns: seq<Turn>)
    requires m.requests == l.requests + [cmd] && Underway(l, cmd, m)
    ensures Underway(l, cmd, Play(m, turns))
    decreases |turns|
  {
    if turns != [] {
      UnderwayTurn(l, cmd, m, turns[0]);
      UnderwayPlay(l, cmd, Turned(m, turns[0]), turns[1..]);
    }
  }

  lemma CalmIsSettled(l: Link)
    requires Quiet(l) && Calm(l)
    ensures l.handled == |l.requests| == l.read == |l.answers|
  {
  }

  /** On a calm connection the daemon's list has changed exactly as the answer says. */
  lemma CalmExchange(l: Link, cmd: Request, at: Attempt)
    requires Quiet(l)
    ensures var (m, got) := Exchange(l, cmd, at);
            Calm(m) ==>
              && got.Some? && got.value.Answer? && Answers(cmd, got.value.reply)
              && (Admitted(Hello in l.requests, cmd) ==> Fits(cmd, got.value.reply))
              && (m.open ==> l.open && m.held == HeldAfter(l.held, cmd, got.value.reply))
  {
    var (m, got) := Exchange(l, cmd, at);
    AnswersLag(l, cmd, at);
    AskedSound(l, cmd, at);
    if Calm(m) {
      CalmIsSettled(l);
      UnderwayPlay(l, Heard(l, cmd, at), Written(l, cmd, at), at.turns);
      GatedAnswers(Hello in l.requests, cmd, got.value.reply);
    }
  }

  /** While the client does nothing, the daemon can do nothing on a calm connection but drop it. */
  lemma {:induction false} CalmStays(l: Link, turns: seq<Turn>)
    requires Quiet(l) && Calm(l)
    ensures var m := Play(l, turns); m == l || m == l.(open := false, farewell := m.farewell, held := [])
    decreases |turns|
  {
    if turns != [] {
      CalmIsSettled(l);
      TurnedSound(l, turns[0]);
      CalmStays(Turned(l, turns[0]), turns[1..]);
    }
  }

  /** A whole conversation: one request after another, each faring as it may. */
  function Talk(l: Link, cmds: seq<Request>, ats: seq<Attempt>): Link
    requires |cmds| == |ats|
    decreases |cmds|
  {
    if cmds == [] then l
    else
      var n := |cmds| - 1;
      Exchange(Talk(l, cmds[..n], ats[..n]), cmds[n], ats[n]).0
  }

  /** What the daemon makes of a line of a conversation in which nothing goes wrong. */
  function Understood(cmds: seq<Request>, k: nat): Request
    requires k < |cmds|
  {
    Gated(Hello in cmds[..k], cmds[k])
  }

  predicate HeardAll(requests: seq<Request>, cmds: seq<Request>) {
    |requests| == |cmds| && forall k :: 0 <= k < |cmds| ==> requests[k] == Understood(cmds, k)
  }

  lemma {:induction false} HeardHello(requests: seq<Request>, cmds: seq<Request>)
    requires HeardAll(requests, cmds)
    ensures Hello in requests <==> Hello in cmds
  {
    if cmds != [] {
      var n := |cmds| - 1;
      HeardPrefix(requests, cmds, n);
      HeardHello(requests[..n], cmds[..n]);
      assert cmds == cmds[..n] + [cmds[n]] && requests == requests[..n] + [requests[n]];
    }
  }

  lemma HeardPrefix(requests: seq<Request>, cmds: seq<Request>, n: nat)
    requires HeardAll(requests, cmds) && n <= |cmds|
    ensures HeardAll(requests[..n], cmds[..n])
  {
    forall k | 0 <= k < n
      ensures requests[..n][k] == Understood(cmds[..n], k)
    {
      assert cmds[..n][..k] == cmds[..k];
    }
  }

  lemma HeardOneMore(requests: seq<Request>, cmds: seq<Request>, cmd: Request)
    requires HeardAll(requests, cmds)
    ensures HeardAll(requests + [Gated(Hello in requests, cmd)], cmds + [cmd])
  {
    HeardHello(requests, cmds);
    var all := cmds + [cmd];
    forall k | 0 <= k < |all|
      ensures (requests + [Gated(Hello in requests, cmd)])[k] == Understood(all, k)
    {
      assert all[..k] == cmds[..k];
    }
    assert cmds[..|cmds|] == cmds;
  }

  lemma CalmRequests(l: Link, cmd: Request, at: Attempt)
    requires Sound(l)
    ensures var m := Exchange(l, cmd, at).0;
            Calm(m) ==> Calm(l) && m.requests == l.requests + [Gated(Hello in l.requests, cmd)]
  {
    AskedSound(l, cmd, at);
  }

  lemma OneMoreExchange(m: Link, cmds: seq<Request>, cmd: Request, at: Attempt)
    requires Quiet(m) && (Calm(m) ==> HeardAll(m.requests, cmds))
    ensures var n := Exchange(m, cmd, at).0; Quiet(n) && (Calm(n) ==> HeardAll(n.requests, cmds + [cmd]))
  {
    ExchangeQuiet(m, cmd, at);
    CalmRequests(m, cmd, at);
    if Calm(Exchange(m, cmd, at).0) { HeardOneMore(m.requests, cmds, cmd); }
  }

  lemma {:induction false} TalkKeeps(l: Link, cmds: seq<Request>, ats: seq<Attempt>)
    requires |cmds| == |ats| && Quiet(l) && l.requests == []
    ensures var m := Talk(l, cmds, ats); Quiet(m) && (Calm(m) ==> HeardAll(m.requests, cmds))
    decreases |cmds|
  {
    if cmds != [] {
      var n := |cmds| - 1;
      TalkKeeps(l, cmds[..n], ats[..n]);
      OneMoreExchange(Talk(l, cmds[..n], ats[..n]), cmds[..n], cmds[n], ats[n]);
      assert cmds == cmds[..n] + [cmds[n]];
    }
  }

  /** If every request of a conversation on a new connection gets an answer in time, the k-th
      answer is the one to the k-th request; after HELLO, to the request as it was meant. */
  lemma EveryAnswerIsOwn(l: Link, cmds: seq<Request>, ats: seq<Attempt>, k: nat)
    requires Quiet(l) && l.requests == []
    requires |cmds| == |ats| && k < |cmds| && Calm(Talk(l, cmds, ats))
    ensures var m := Talk(l, cmds, ats);
            && |m.answers| == m.read == |cmds| && m.answers[k].Answer? && m.answers[k].to == k
            && Answers(cmds[k], m.answers[k].reply)
            && (Admitted(Hello in cmds[..k], cmds[k]) ==> Fits(cmds[k], m.answers[k].reply))
  {
    TalkKeeps(l, cmds, ats);
    var m := Talk(l, cmds, ats);
    CalmIsSettled(m);
    assert AnswerOk(m, k);
    assert m.requests[k] == Understood(cmds, k);
    GatedAnswers(Hello in cmds[..k], cmds[k], m.answers[k].reply);
  }

  // ---- the client ----

  /** A new connection, and the greeting on it. */
  datatype Dial = Dial(connects: bool, hello: Attempt)

  /** What one call of rpc meets: its attempts, and the reconnections before and between them. */
  datatype Luck = Luck(before: Dial, first: Attempt, between: Dial, second: Attempt)

  predicate Greets(a: Answer) { "OK 1" <= Join(a.Words()) }

  /** reconnect: the new connection, and whether the greeting went well. */
  function Dialed(path: bool, dial: Dial): (r: (Option<Link>, bool))
    ensures r.1 ==> r.0.Some?
  {
    if !path || !dial.connects then (None, false)
    else
      var (l, got) := Exchange(Fresh(dial.connects), Hello, dial.hello);
      (Some(l), got.Some? && Greets(got.value))
  }

  /** rpc: at most two attempts, the second on a new connection and only if nothing is leased. */
  function Called(path: bool, link: Option<Link>, held: seq<Address>, cmd: Request, luck: Luck): (r: (Option<Link>, Option<Answer>))
    ensures r.1.Some? ==> r.0.Some?
  {
    var (l0, up0) := if link.Some? then (link, true) else Dialed(path, luck.before);
    if !up0 then (l0, None)
    else
      var (l1, got) := Exchange(l0.value, cmd, luck.first);
      if got.Some? || held != [] then (Some(l1), got)
      else
        var (l2, up2) := Dialed(path, luck.between);
        if !up2 then (l2, None)
        else var (l3, last) := Exchange(l2.value, cmd, luck.second); (Some(l3), last)
  }

  /** A new connection is made, and greets. */
  predicate Opens(path: bool, dial: Dial) {
    path && dial.connects && Exchange(Fresh(true), Hello, dial.hello).1.Some?
    && "OK 1" <= Join(Exchange(Fresh(true), Hello, dial.hello).1.value.Words())
  }

  /** And this is it. */
  function OpenedLink(dial: Dial): Link { Exchange(Fresh(true), Hello, dial.hello).0 }

  /** What comes of a request, in terms of the exchanges on the connections: an answer on the old
      connection is returned, and if there is none and nothing is leased, the request is made once
      more on a new connection that greets, and what comes of that is returned. */
  lemma CalledOnLink(path: bool, l: Link, held: seq<Address>, cmd: Request, luck: Luck)
    ensures var (m, got) := Exchange(l, cmd, luck.first);
            var (n, last) := Called(path, Some(l), held, cmd, luck);
            && (got.Some? || held != [] ==> n == Some(m) && last == got)
            && (got.None? && held == [] && Opens(path, luck.between) ==>
                  var (o, again) := Exchange(OpenedLink(luck.between), cmd, luck.second);
                  n == Some(o) && last == again)
            && (got.None? && held == [] && !Opens(path, luck.between) ==> last == None)
  {
  }

  /** Without a connection one is made first. */
  lemma CalledWithoutLink(path: bool, held: seq<Address>, cmd: Request, luck: Luck)
    ensures Opens(path, luck.before) ==>
              Called(path, None, held, cmd, luck) == Called(path, Some(OpenedLink(luck.before)), held, cmd, luck)
    ensures !Opens(path, luck.before) ==> Called(path, None, held, cmd, luck).1 == None
  {
  }

  /** When exactly a call gets no answer. */
  lemma CallFailsExactly(path: bool, link: Option<Link>, held: seq<Address>, cmd: Request, luck: Luck)
    ensures var l := if link.Some? then link.value else OpenedLink(luck.before);
            Called(path, link, held, cmd, luck).1.None? <==>
              || (link.None? && !Opens(path, luck.before))
              || (Exchange(l, cmd, luck.first).1.None?
                  && (held != [] || !Opens(path, luck.between)
                      || Exchange(OpenedLink(luck.between), cmd, luck.second).1.None?))
  {
    if link.Some? {
      CalledOnLink(path, link.value, held, cmd, luck);
    } else {
      CalledWithoutLink(path, held, cmd, luck);
      CalledOnLink(path, OpenedLink(luck.before), held, cmd, luck);
    }
  }

  /** Answers that end an acquire without a lease. */
  predicate SaysShutdown(a: Answer) { "shutting-down" in a.Words() }

  /** One try of acquire, and whether it is the last: without an answer the client reconnects. */
  function TriedOnce(path: bool, link: Option<Link>, held: seq<Address>, skip: seq<string>, luck: Luck, dial: Dial)
    : (Option<Link>, seq<Address>, Option<Address>, bool)
  {
    var (l, got) := Called(path, link, held, Request.Acquire(skip), luck);
    if got.None? then (Dialed(path, dial).0, [], None, false)
    else
      (l, AfterAnswer(held, Request.Acquire(skip), got), LeaseOf(got), LeaseOf(got).Some? || SaysShutdown(got.value))
  }

  /** acquire: try after try, as long as time allows. */
  function Tried(path: bool, link: Option<Link>, held: seq<Address>, skip: seq<string>, tries: seq<(Luck, Dial)>)
    : (Option<Link>, seq<Address>, Option<Address>)
    decreases |tries|
  {
    if tries == [] then (link, held, None)
    else
      var (l, h, got, done) := TriedOnce(path, link, held, skip, tries[0].0, tries[0].1);
      if done then (l, h, got) else Tried(path, l, h, skip, tries[1..])
  }

  /** What one try makes of what comes of the request: a lease, another answer, or none. */
  lemma TriedOnceExactly(path: bool, link: Option<Link>, held: seq<Address>, skip: seq<string>, luck: Luck, dial: Dial)
    ensures var (l, reply) := Called(path, link, held, Request.Acquire(skip), luck);
            var (m, h, got, last) := TriedOnce(path, link, held, skip, luck, dial);
            && (reply.None? ==>
                  && got.None? && !last && h == []
                  && (Opens(path, dial) ==> m == Some(OpenedLink(dial))) && (!path || !dial.connects ==> m == None))
            && (reply.Some? ==> m == l)
            && (reply.Some? && LeaseIn(reply.value.Words()).Some? ==>
                  got == LeaseIn(reply.value.Words()) && h == held + [got.value] && last)
            && (reply.Some? && LeaseIn(reply.value.Words()).None? ==>
                  got.None? && h == held && (last <==> "shutting-down" in reply.value.Words()))
  {
  }

  /** What a try leaves: the connection, the list, the lease, and whether it was the last. */
  type Outcome = (Option<Link>, seq<Address>, Option<Address>, bool)

  /** Try j is made because the one before was not the last, and from where that one left off. */
  predicate Follows(path: bool, skip: seq<string>, outcomes: seq<Outcome>, tries: seq<(Luck, Dial)>, j: nat)
    requires 0 < j < |outcomes| <= |tries|
  {
    var before := outcomes[j - 1];
    !before.3 && outcomes[j] == TriedOnce(path, before.0, before.1, skip, tries[j].0, tries[j].1)
  }

  /** acquire tries again as long as there are tries left and none has brought a lease or the news that
      the daemon is stopping; what the last one brings is the result. */
  lemma {:induction false} TriedInTurn(path: bool, link: Option<Link>, held: seq<Address>, skip: seq<string>, tries: seq<(Luck, Dial)>)
    returns (outcomes: seq<Outcome>)
    requires tries != []
    ensures 1 <= |outcomes| <= |tries|
    ensures outcomes[0] == TriedOnce(path, link, held, skip, tries[0].0, tries[0].1)
    ensures forall j :: 0 < j < |outcomes| ==> Follows(path, skip, outcomes, tries, j)
    ensures var last := outcomes[|outcomes| - 1];
            && (last.3 || |outcomes| == |tries|)
            && Tried(path, link, held, skip, tries) == (last.0, last.1, if last.3 then last.2 else None)
    decreases |tries|
  {
    var first := TriedOnce(path, link, held, skip, tries[0].0, tries[0].1);
    outcomes := [first];
    assert |tries| == 1 ==> Tried(path, first.0, first.1, skip, tries[1..]) == (first.0, first.1, None);
    if !first.3 && |tries| > 1 {
      var more := TriedInTurn(path, first.0, first.1, skip, tries[1..]);
      outcomes := [first] + more;
      forall j | 0 < j < |outcomes|
        ensures Follows(path, skip, outcomes, tries, j)
      {
        if j > 1 { assert Follows(path, skip, more, tries[1..], j - 1); }
      }
    }
  }

  lemma GreetingGreets(a: Answer)
    requires a.Answer? && a.reply.Greeting?
    ensures Greets(a)
  {
    var w := a.Words();
    assert w[1..][1..] == ["proxchunkd", VERSION] && w[1..] == ["1", "proxchunkd", VERSION];
    assert Join(w) == "OK" + " " + ("1" + " " + Join(["proxchunkd", VERSION]));
  }

  class ProxyClient {
    var path: bool
    var link: Option<Link>
    var held: seq<Address>

    constructor ()
      ensures Valid() && link.None? && held == []
    {
      path, link, held := false, None, [];
    }

    /** Between calls, both ends of a connection on which no request went unanswered have the same
        list of leases. */
    predicate Valid()
      reads this
    {
      match link
      case None => held == []
      case Some(l) => Quiet(l) && (Calm(l) && l.open ==> held == l.held)
    }

    /** After a request and before the client has acted on its answer. */
    predicate Answered(cmd: Request, got: Option<Answer>)
      reads this
    {
      && (link.Some? ==> Quiet(link.value))
      && (if got.Some? then link.Some? else link.None? || !Calm(link.value))
      && (got.Some? && link.Some? && Calm(link.value) ==>
            && got.value.Answer? && Answers(cmd, got.value.reply)
            && (link.value.open ==> link.value.held == HeldAfter(held, cmd, got.value.reply)))
    }

    method Once(cmd: Request, at: Attempt) returns (got: Option<Answer>)
      requires Valid() && link.Some?
      modifies this`link
      ensures link.Some? && (link.value, got) == Exchange(old(link.value), cmd, at)
      ensures Answered(cmd, got)
    {
      CalmExchange(link.value, cmd, at);
      AnswersLag(link.value, cmd, at);
      ExchangeMisses(link.value, cmd, at);
      var (m, a) := Exchange(link.value, cmd, at);
      link, got := Some(m), a;
    }

    method Hello(at: Attempt) returns (ok: bool)
      requires Valid() && link.Some?
      modifies this`link
      ensures Valid() && link.Some? && held == old(held)
      ensures !ok && Request.Hello !in old(link.value.requests) ==> !Calm(link.value)
      ensures var (l, got) := Exchange(old(link.value), Request.Hello, at);
              link.value == l && ok == (got.Some? && Greets(got.value))
    {
      CalmExchange(link.value, Request.Hello, at);
      var got := Once(Request.Hello, at);
      if got.Some? && got.value.Answer? && got.value.reply.Greeting? { GreetingGreets(got.value); }
      ok := got.Some? && Greets(got.value);
    }

    /** connect, which the callers use before anything is leased. */
    method Connect(dial: Dial) returns (ok: bool)
      requires held == []
      modifies this`path, this`link
      ensures Valid() && path && ok == dial.connects
      ensures link == if ok then Some(Fresh(dial.connects)) else None
    {
      path, link := true, None;
      if dial.connects {
        link := Some(Fresh(dial.connects));
      }
      ok := dial.connects;
    }

    method Reconnect(dial: Dial) returns (ok: bool)
      modifies this`path, this`link, this`held
      ensures Valid() && held == [] && path == old(path)
      ensures (link, ok) == Dialed(path, dial)
      ensures !ok ==> link.None? || !Calm(link.value)
    {
      link := None;
      held := [];
      if !path {
        return false;
      }
      ok := Connect(dial);
      if ok {
        ok := Hello(dial.hello);
      }
    }

    /** It never reconnects while something is leased. */
    method Rpc(cmd: Request, luck: Luck) returns (got: Option<Answer>)
      requires Valid()
      modifies this`path, this`link, this`held
      ensures (link, got) == Called(path, old(link), held, cmd, luck)
      ensures Answered(cmd, got) && held == old(held) && path == old(path)
      ensures held != [] ==>
                link.Some? && old(link).Some? && (link.value, got) == Exchange(old(link.value), cmd, luck.first)
    {
      if link.None? {
        var ok := Reconnect(luck.before);
        if !ok {
          return None;
        }
      }
      got := Once(cmd, luck.first);
      if got.Some? || held != [] {
        return;
      }
      var ok := Reconnect(luck.between);
      if !ok {
        return None;
      }
      got := Once(cmd, luck.second);
    }

    method TryAcquire(skip: seq<string>, luck: Luck, dial: Dial) returns (got: Option<Address>, done: bool)
      requires Valid()
      modifies this`path, this`link, this`held
      ensures (link, held, got, done) == TriedOnce(path, old(link), old(held), skip, luck, dial)
      ensures Valid() && path == old(path) && (got.Some? ==> done)
      ensures if got.Some? then held == old(held) + [got.value] else held == old(held) || held == []
    {
      var reply := Rpc(Request.Acquire(skip), luck);
      if reply.None? {
        var _ := Reconnect(dial);
        return None, false;
      }
      if reply.value.Answer? && Answers(Request.Acquire(skip), reply.value.reply) {
        AnswerAgrees(reply.value, held, Request.Acquire(skip));
      }
      var lease := LeaseIn(reply.value.Words());
      if lease.Some? {
        held := held + [lease.value];
        return lease, true;
      }
      return None, SaysShutdown(reply.value);
    }

    /** acquire; `tries` says how each of the tries within the time allowed fares. */
    method Acquire(skip: seq<string>, tries: seq<(Luck, Dial)>) returns (got: Option<Address>)
      requires Valid() && tries != []
      modifies this`path, this`link, this`held
      ensures (link, held, got) == Tried(path, old(link), old(held), skip, tries)
      ensures Valid() && path == old(path)
      ensures var lease := if got.Some? then [got.value] else [];
              held == old(held) + lease || held == lease
    {
      var i := 0;
      assert tries[0..] == tries;
      while true
        invariant Valid() && 0 <= i < |tries| && (held == old(held) || held == []) && path == old(path)
        invariant Tried(path, old(link), old(held), skip, tries) == Tried(path, link, held, skip, tries[i..])
        decreases |tries| - i
      {
        assert tries[i..][0] == tries[i] && tries[i..][1..] == tries[i + 1..];
        var done;
        got, done := TryAcquire(skip, tries[i].0, tries[i].1);
        i := i + 1;
        if done || i == |tries| {
          return;
        }
      }
    }

    /** release; the address leaves the client's list however the request fares. */
    method Release(url: Address, ok: bool, mbps: real, luck: Luck) returns (done: bool)
      requires Valid()
      modifies this`path, this`link, this`held
      ensures var (l, got) := Called(path, old(link), old(held), Request.Release(url, ok, mbps), luck);
              link == l && done == (got.Some? && "OK" <= Join(got.value.Words()))
      ensures Valid() && held == EraseFirst(old(held), url)
    {
      var got := Rpc(Request.Release(url, ok, mbps), luck);
      done := got.Some? && "OK" <= Join(got.value.Words());
      held := EraseFirst(held, url);
    }

    /** ping, stats and set_target. */
    method Ask(cmd: Request, luck: Luck) returns (got: Option<Answer>)
      requires Valid() && (cmd.Ping? || cmd.Stats? || cmd.Target?)
      modifies this`path, this`link, this`held
      ensures (link, got) == Called(path, old(link), held, cmd, luck)
      ensures Valid() && Answered(cmd, got) && held == old(held)
    {
      got := Rpc(cmd, luck);
    }

    /** One round of the keepalive thread: it never reconnects. */
    method KeepAlive(at: Attempt)
      requires Valid()
      modifies this`link
      ensures Valid() && link == if old(link).None? then None else Some(Pinged(old(link).value, at))
    {
      if link.Some? {
        if at.written {
          var _ := Once(Ping, at);
        } else {
          PingedQuiet(link.value, at);
          link := Some(Pinged(link.value, at));
        }
      }
    }

    /** The daemon acts while the client does nothing. */
    method DaemonActs(turns: seq<Turn>)
      requires Valid() && link.Some?
      modifies this`link
      ensures Valid() && link == Some(Play(old(link.value), turns))
    {
      PlaySound(link.value, turns);
      if Calm(link.value) { CalmStays(link.value, turns); }
      link := Some(Play(link.value, turns));
    }
  }

  lemma ExchangeMisses(l: Link, cmd: Request, at: Attempt)
    requires Sound(l)
    ensures var (m, got) := Exchange(l, cmd, at);
            (got.None? || got.value.Farewell? ==> !Calm(m)) && (!Calm(l) ==> !Calm(m))
  {
    AskedSound(l, cmd, at);
    var m := Asked(l, cmd, at);
    if m.read < |m.answers| { assert AnswerOk(m, m.read); }
  }

  // ---- why the answers must come in time ----

  /** One PING that is answered late, on any connection that was greeted and on which all went well: the next
      ACQUIRE reads the answer to the PING, takes it for a refusal, and the daemon has a lease that
      the client does not know of. */
  lemma LatePongHidesALease(l: Link, url: Address, number: string)
    requires Quiet(l) && Calm(l) && l.open && !l.farewell && Hello in l.requests
    ensures var (late, none) := Exchange(l, Ping, Attempt(true, Nothing, []));
            var turns := [Handles(Pong, "", true), Handles(Lease(url), number, true)];
            var (m, got) := Exchange(late, Acquire([]), Attempt(true, Nothing, turns));
            && none.None? && Quiet(late)
            && got.Some? && LeaseIn(got.value.Words()) == None
            && m.open && m.held == l.held + [url]
  {
    CalmIsSettled(l);
    var (late, none) := Exchange(l, Ping, Attempt(true, Nothing, []));
    AnswersLag(l, Ping, Attempt(true, Nothing, []));
    var turns := [Handles(Pong, "", true), Handles(Lease(url), number, true)];
    var w, n := Written(late, Acquire([]), Attempt(true, Nothing, turns)), |l.requests|;
    assert w.requests[n] == Ping && w.requests[n + 1] == Acquire([]);
    var one := w.(handled := n + 1, answers := w.answers + [Answer(n, Pong, "")]);
    assert Turned(w, turns[0]) == one;
    var two := one.(handled := n + 2, answers := one.answers + [Answer(n + 1, Lease(url), number)], held := l.held + [url]);
    assert Turned(one, turns[1]) == two;
    assert turns[1..] == [turns[1]] && turns[1..][1..] == [];
    assert Play(w, turns) == Play(one, turns[1..]) == Play(two, []) == two;
  }

  /** A greeting that comes too late is taken for the lease of a proxy whose address is "1". */
  lemma LateGreetingIsTakenForALease(number: string)
    ensures var (late, none) := Exchange(Fresh(true), Hello, Attempt(true, Nothing, []));
            var (m, got) := Exchange(late, Acquire([]), Attempt(true, Nothing, [Handles(Greeting, number, true)]));
            && none.None? && got.Some? && LeaseIn(got.value.Words()) == Some("1")
            && m.open && m.held == []
  {
    var late := Exchange(Fresh(true), Hello, Attempt(true, Nothing, [])).0;
    var turns := [Handles(Greeting, number, true)];
    var w := Written(late, Acquire([]), Attempt(true, Nothing, turns));
    assert w.requests == [Hello, Acquire([])];
    assert Play(w, turns) == Play(Turned(w, turns[0]), []);
  }

  // ---- how the client comes to release what it does not hold ----

  /** The greeting is exchanged on a new connection. */
  lemma GreetingOnFresh(up: bool, hello: Attempt, number: string)
    requires up && hello == Attempt(true, Nothing, [Handles(Greeting, number, true)])
    ensures var (l, got) := Exchange(Fresh(up), Hello, hello);
            && got.Some? && got.value.Answer? && Greets(got.value)
            && l.open && l.held == [] && l.requests == [Hello] && l.handled == l.read == |l.answers| == 1
            && l.misses == 0 && !l.cut
  {
    var w := Written(Fresh(up), Hello, hello);
    assert w.requests == [Hello];
    assert Play(w, hello.turns) == Play(Turned(w, hello.turns[0]), []);
    GreetingGreets(Answer(0, Greeting, number));
  }

  /** A client that has leases asks for another, gets no answer in time, and reconnects: its list is
      empty. The worker that uses one of the leases then releases it, and the client sends the RELEASE
      on the new connection, which does not hold it. */
  lemma ReleaseAfterReconnect(l: Link, held: seq<Address>, skip: seq<string>, luck: Luck, dial: Dial, number: string,
                              release: Request, again: Luck)
    requires Quiet(l) && Calm(l) && l.open && !l.farewell && held == l.held && release.Release? && release.url in held
    requires luck.first == Attempt(true, Nothing, [])
    requires dial == Dial(true, Attempt(true, Nothing, [Handles(Greeting, number, true)]))
    requires again.first == Attempt(true, Nothing, [Handles(Done, number, true)])
    ensures var (m, h, got, done) := TriedOnce(true, Some(l), held, skip, luck, dial);
            && got.None? && !done && h == [] && m.Some? && Calm(m.value) && m.value.open && m.value.held == []
            && var (n, answer) := Called(true, m, h, release, again);
               && answer.Some? && n.Some? && n.value.requests == [Hello, release]
  {
    CalmIsSettled(l);
    var (m, h, got, done) := TriedOnce(true, Some(l), held, skip, luck, dial);
    assert held != [];
    GreetingOnFresh(dial.connects, dial.hello, number);
    var w := Written(m.value, release, again.first);
    assert w.requests == [Hello, release];
    assert Play(w, again.first.turns) == Play(Turned(w, again.first.turns[0]), []);
  }
}
