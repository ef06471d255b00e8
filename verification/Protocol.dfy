/** Lines and commands of the daemon's protocol (include/proxchunk/proxy_ipc.hpp,
    src/proxy_ipc.cpp, src/proxchunkd.cpp:441-552). */
module Protocol {
  import opened Wrappers

  const MAX_LINE := 4096

  // ---- splitting a line into tokens ----

  /** A token: not empty, and free of spaces. */
  predicate IsToken(w: string) { w != "" && ' ' !in w }

  /** The first n characters at position i that are not spaces form a word of that length. */
  function WordLength(line: string): (n: nat)
    ensures n <= |line| && ' ' !in line[..n]
    ensures n < |line| ==> line[n] == ' '
  {
    if line == "" || line[0] == ' ' then 0 else WordLength(line[1..]) + 1
  }

  /** The tokens of a line. */
  function Split(line: string): seq<string>
    decreases |line|
  {
    if line == "" then []
    else if line[0] == ' ' then Split(line[1..])
    else [line[..WordLength(line)]] + Split(line[WordLength(line)..])
  }

  function Join(words: seq<string>): string {
    if words == [] then ""
    else if |words| == 1 then words[0]
    else words[0] + " " + Join(words[1..])
  }

  function NoSpaces(line: string): string {
    if line == "" then ""
    else if line[0] == ' ' then NoSpaces(line[1..]) else [line[0]] + NoSpaces(line[1..])
  }

  lemma {:induction false} NoSpacesOfWord(w: string, rest: string)
    requires ' ' !in w
    ensures NoSpaces(w + rest) == w + NoSpaces(rest)
  {
    if w == "" {
      assert w + rest == rest;
    } else {
      assert (w + rest)[1..] == w[1..] + rest;
      NoSpacesOfWord(w[1..], rest);
    }
  }

  /** Splitting yields tokens, and loses nothing of the line but its spaces. */
  lemma {:induction false} SplitSound(line: string)
    ensures forall i :: 0 <= i < |Split(line)| ==> IsToken(Split(line)[i])
    ensures Flatten(Split(line)) == NoSpaces(line)
    decreases |line|
  {
    if line != "" {
      if line[0] == ' ' {
        SplitSound(line[1..]);
      } else {
        var n := WordLength(line);
        SplitSound(line[n..]);
        assert line == line[..n] + line[n..];
        NoSpacesOfWord(line[..n], line[n..]);
      }
    }
  }

  lemma {:induction false} WordLengthOfToken(w: string, rest: string)
    requires ' ' !in w && (rest == "" || rest[0] == ' ')
    ensures WordLength(w + rest) == |w|
  {
    if w == "" {
      assert w + rest == rest;
    } else {
      assert (w + rest)[1..] == w[1..] + rest;
      WordLengthOfToken(w[1..], rest);
    }
  }

  lemma SplitToken(w: string, rest: string)
    requires IsToken(w) && (rest == "" || rest[0] == ' ')
    ensures Split(w + rest) == [w] + Split(rest)
  {
    WordLengthOfToken(w, rest);
    assert (w + rest)[..|w|] == w && (w + rest)[|w|..] == rest;
  }

  /** Tokens joined by single spaces are split again into the same tokens. */
  lemma {:induction false} SplitJoin(words: seq<string>)
    requires forall i :: 0 <= i < |words| ==> IsToken(words[i])
    ensures Split(Join(words)) == words
  {
    if |words| == 1 {
      assert words[0] + "" == words[0];
      SplitToken(words[0], "");
    } else if |words| > 1 {
      var rest := Join(words[1..]);
      SplitJoin(words[1..]);
      assert Join(words) == words[0] + (" " + rest);
      SplitToken(words[0], " " + rest);
      assert (" " + rest)[1..] == rest;
    }
  }

  lemma SplitAt(line: string, i: nat, j: nat)
    requires i < j <= |line| && line[i] != ' ' && WordLength(line[i..]) == j - i
    ensures Split(line[i..]) == [line[i..j]] + Split(line[j..])
  {
    assert line[i..][..j - i] == line[i..j] && line[i..][j - i..] == line[j..];
  }

  lemma SkipSpace(line: string, i: nat)
    requires i < |line| && line[i] == ' '
    ensures Split(line[i..]) == Split(line[i + 1..])
  {
    assert line[i..][1..] == line[i + 1..];
  }

  lemma LongerWord(line: string, j: nat)
    requires j < |line| && line[j] != ' '
    ensures WordLength(line[j..]) == WordLength(line[j + 1..]) + 1
  {
    assert line[j..][1..] == line[j + 1..];
  }

  lemma WordDone(line: string, i: nat, j: nat, tok: seq<string>)
    requires i < j <= |line| && line[i] != ' ' && (j == |line| || line[j] == ' ')
    requires WordLength(line[i..]) == j - i + WordLength(line[j..])
    ensures tok + Split(line[i..]) == (tok + [line[i..j]]) + Split(line[j..])
  {
    assert WordLength(line[j..]) == 0;
    SplitAt(line, i, j);
  }

  /** ipc_split, with the two nested scans of the program. */
  method IpcSplit(line: string) returns (tok: seq<string>)
    ensures tok == Split(line)
  {
    tok := [];
    var i := 0;
    assert line[0..] == line;
    while i < |line|
      invariant 0 <= i <= |line| && tok + Split(line[i..]) == Split(line)
      decreases |line| - i
    {
      ghost var left := Split(line[i..]);
      while i < |line| && line[i] == ' '
        invariant 0 <= i <= |line| && Split(line[i..]) == left
      {
        SkipSpace(line, i);
        i := i + 1;
      }
      if i >= |line| {
        break;
      }
      var j := i;
      while j < |line| && line[j] != ' '
        invariant i <= j <= |line| && WordLength(line[i..]) == j - i + WordLength(line[j..])
      {
        LongerWord(line, j);
        j := j + 1;
      }
      WordDone(line, i, j, tok);
      tok := tok + [line[i..j]];
      i := j;
    }
    assert line[i..] == "";
  }

  // ---- commands ----

  /** What handle_line makes of a line. */
  datatype Request =
    | Nothing
    | Hello
    | Ping
    | Target(url: string)
    | Stats
    | Acquire(skip: seq<string>)
    | Release(url: string, ok: bool, mbps: real)
    | Stop
    | Malformed // answered with ERR protocol, and the connection is closed
    | Unknown

  /** std::stod, as far as the daemon uses it: a number, or an exception. */
  type Number = string -> Option<real>

  function Parse(tok: seq<string>, greeted: bool, number: Number): Request {
    if tok == [] then Nothing
    else if !greeted then
      if |tok| == 2 && tok[0] == "HELLO" && tok[1] == "1" then Hello else Malformed
    else if tok[0] == "PING" then Ping
    else if tok[0] == "TARGET" then if |tok| != 2 then Malformed else Target(tok[1])
    else if tok[0] == "STATS" then Stats
    else if tok[0] == "ACQUIRE" then
      Acquire(if |tok| >= 2 && tok[1] == "skip" then tok[2..] else [])
    else if tok[0] == "RELEASE" then
      if |tok| != 4 || (tok[2] != "ok" && tok[2] != "fail") then Malformed
      else if number(tok[3]).None? then Malformed
      else Release(tok[1], tok[2] == "ok", number(tok[3]).value)
    else if tok[0] == "STOP" then Stop
    else Unknown
  }

  /** The requests that a connection can make before it has said HELLO, and after. */
  predicate Admitted(greeted: bool, r: Request) {
    if greeted then !r.Hello? else r.Nothing? || r.Hello? || r.Malformed?
  }

  /** What a request amounts to on a connection that has, or has not, said HELLO. */
  function Gated(greeted: bool, r: Request): (g: Request)
    ensures Admitted(greeted, g) && (Admitted(greeted, r) ==> g == r)
  {
    if Admitted(greeted, r) then r else if greeted then Unknown else Malformed
  }

  /** The commands by their first word. */
  const COMMANDS := ["PING", "TARGET", "STATS", "ACQUIRE", "RELEASE", "STOP"]

  /** A command whose other words are wrong. */
  predicate BadCommand(tok: seq<string>, number: Number) {
    || (tok != [] && tok[0] == "TARGET" && |tok| != 2)
    || (tok != [] && tok[0] == "RELEASE" && !(|tok| == 4 && tok[2] in ["ok", "fail"] && number(tok[3]).Some?))
  }

  /** Which lines are which requests, in terms of their words. */
  lemma RequestsExactly(tok: seq<string>, greeted: bool, number: Number)
    ensures var r := Parse(tok, greeted, number);
            && Admitted(greeted, r)
            && (r == Nothing <==> tok == [])
            && (r == Hello <==> !greeted && tok == ["HELLO", "1"])
            && (r == Malformed <==> tok != [] && if greeted then BadCommand(tok, number) else tok != ["HELLO", "1"])
            && (r == Unknown <==> greeted && tok != [] && tok[0] !in COMMANDS)
    ensures greeted && tok != [] ==>
              var r := Parse(tok, greeted, number);
              && (r == Ping <==> tok[0] == "PING") && (r == Stats <==> tok[0] == "STATS") && (r == Stop <==> tok[0] == "STOP")
              && (r.Acquire? <==> tok[0] == "ACQUIRE")
              && (r.Acquire? ==> if |tok| > 1 && tok[1] == "skip" then tok == ["ACQUIRE", "skip"] + r.skip else r.skip == [])
              && (forall url :: r == Target(url) <==> tok == ["TARGET", url])
              && (forall url, ok, mbps :: r == Release(url, ok, mbps) <==>
                    |tok| == 4 && tok == ["RELEASE", url, if ok then "ok" else "fail", tok[3]] && number(tok[3]) == Some(mbps))
  {
  }

  /** The words of the line the client sends for a request; `digits` is what an ostream makes
      of mbps. */
  function Words(r: Request, digits: string): seq<string> {
    match r
    case Hello => ["HELLO", "1"]
    case Ping => ["PING"]
    case Target(url) => ["TARGET", url]
    case Stats => ["STATS"]
    case Acquire(skip) => if skip == [] then ["ACQUIRE"] else ["ACQUIRE", "skip"] + skip
    case Release(url, ok, _) => ["RELEASE", url, if ok then "ok" else "fail", digits]
    case Stop => ["STOP"]
    case _ => []
  }

  function Encode(r: Request, digits: string): string { Join(Words(r, digits)) }

  /** The requests a client makes: addresses have no spaces. */
  predicate Sendable(r: Request) {
    match r
    case Target(url) => IsToken(url)
    case Acquire(skip) => forall i :: 0 <= i < |skip| ==> IsToken(skip[i])
    case Release(url, _, _) => IsToken(url)
    case Nothing => false
    case Malformed => false
    case Unknown => false
    case _ => true
  }

  lemma WordsAreTokens(r: Request, digits: string)
    requires Sendable(r) && (r.Release? ==> IsToken(digits))
    ensures forall i :: 0 <= i < |Words(r, digits)| ==> IsToken(Words(r, digits)[i])
  {
  }

  lemma ParseWords(r: Request, digits: string, number: Number)
    requires Sendable(r) && (r.Release? ==> number(digits) == Some(r.mbps))
    ensures Parse(Words(r, digits), !r.Hello?, number) == r
  {
    match r
    case Acquire(skip) =>
      if skip != [] { assert Words(r, digits)[2..] == skip; }
    case _ =>
  }

  /** The daemon reads back every request that the client sends. */
  lemma CommandRoundTrip(r: Request, digits: string, number: Number)
    requires Sendable(r)
    requires r.Release? ==> IsToken(digits) && number(digits) == Some(r.mbps)
    ensures Parse(Split(Encode(r, digits)), !r.Hello?, number) == r
  {
    WordsAreTokens(r, digits);
    SplitJoin(Words(r, digits));
    ParseWords(r, digits, number);
  }

  lemma {:induction false} JoinAppend(words: seq<string>, w: string)
    requires words != []
    ensures Join(words + [w]) == Join(words) + " " + w
  {
    if |words| == 1 {
      assert (words + [w])[1..] == [w];
    } else {
      assert (words + [w])[1..] == words[1..] + [w];
      JoinAppend(words[1..], w);
    }
  }

  /** The line with the first n addresses of the skip list. */
  function SkipLine(skip: seq<string>, n: nat): string
    requires n <= |skip|
  {
    Join(["ACQUIRE", "skip"] + skip[..n])
  }

  lemma SkipLineNext(skip: seq<string>, n: nat)
    requires n < |skip|
    ensures SkipLine(skip, n + 1) == SkipLine(skip, n) + " " + skip[n]
  {
    JoinAppend(["ACQUIRE", "skip"] + skip[..n], skip[n]);
    assert ["ACQUIRE", "skip"] + skip[..n + 1] == (["ACQUIRE", "skip"] + skip[..n]) + [skip[n]];
  }

  lemma SkipLineNone(skip: seq<string>)
    ensures SkipLine(skip, 0) == "ACQUIRE skip"
  {
    var words := ["ACQUIRE", "skip"] + skip[..0];
    assert words == ["ACQUIRE", "skip"] && words[1..] == ["skip"];
    assert Join(words) == "ACQUIRE" + " " + "skip";
  }

  /** How long the line is with the first n addresses. */
  function SkipLength(skip: seq<string>, n: nat): nat
    requires n <= |skip|
  {
    if n == 0 then |"ACQUIRE skip"| else SkipLength(skip, n - 1) + 1 + |skip[n - 1]|
  }

  /** Some address is added to a line that passed the length check, and makes it too long to send. */
  predicate SkipOverflows(skip: seq<string>) {
    exists i :: 0 <= i < |skip| && SkipLength(skip, i) <= MAX_LINE - 64 && SkipLength(skip, i + 1) >= MAX_LINE
  }

  lemma {:induction false} SkipLengthGrows(skip: seq<string>, m: nat, n: nat)
    requires m < n <= |skip|
    ensures SkipLength(skip, m) < SkipLength(skip, n)
  {
    if m < n - 1 { SkipLengthGrows(skip, m, n - 1); }
  }

  /** The address at which the client stops is the only one that can make the line too long. */
  lemma StopsAtTheFirst(skip: seq<string>, n: nat)
    requires 0 < n <= |skip| && SkipLength(skip, n - 1) <= MAX_LINE - 64
    requires n < |skip| ==> SkipLength(skip, n) > MAX_LINE - 64
    ensures SkipLength(skip, n) >= MAX_LINE <==> SkipOverflows(skip)
  {
    forall i | 0 <= i < |skip| && SkipLength(skip, i) <= MAX_LINE - 64 && SkipLength(skip, i + 1) >= MAX_LINE
      ensures i == n - 1
    {
      if i >= n && n < |skip| && i > n { SkipLengthGrows(skip, n, i); }
      if i + 1 < n { SkipLengthGrows(skip, i + 1, n - 1); }
    }
  }

  /** How the client assembles ACQUIRE: it stops adding addresses once the line is long. */
  method EncodeAcquire(skip: seq<string>) returns (cmd: string, ghost n: nat)
    ensures n <= |skip| && cmd == Encode(Acquire(skip[..n]), "")
    ensures n < |skip| ==> |cmd| > 4032
    ensures n > 0 ==> |SkipLine(skip, n - 1)| <= 4032
    ensures |cmd| <= 4095 <==> !SkipOverflows(skip)
    ensures (forall i :: 0 <= i < |skip| ==> |skip[i]| <= 62) ==> |cmd| <= 4095
  {
    cmd := "ACQUIRE";
    n := 0;
    if skip == [] {
      return;
    }
    cmd := cmd + " skip";
    SkipLineNone(skip);
    var i := 0;
    while i < |skip|
      invariant 0 <= i == n <= |skip| && cmd == SkipLine(skip, n)
      invariant |cmd| == SkipLength(skip, n)
      invariant |cmd| <= MAX_LINE - 64 && (n > 0 ==> |SkipLine(skip, n - 1)| <= MAX_LINE - 64)
    {
      SkipLineNext(skip, n);
      cmd := cmd + " " + skip[i];
      i := i + 1;
      n := i;
      if |cmd| > MAX_LINE - 64 {
        break;
      }
    }
    StopsAtTheFirst(skip, n);
  }

  // ---- replies ----

  /** The daemon's answers; speeds are printed as opaque words. */
  datatype Reply =
    | Greeting                              // OK 1 proxchunkd <version>
    | Pong                                  // OK pong
    | Reached(n: nat)                       // OK <n>
    | Statistics(live: nat, busy: nat, top: real)
    | Lease(url: string)                    // OK <url> <speed>
    | Empty                                 // ERR empty
    | ShuttingDown                          // ERR shutting-down
    | Done                                  // OK
    | Stopping                              // OK shutting-down
    | ProtocolError                         // ERR protocol
    | UnknownCommand                        // ERR unknown
    | Silence                               // no answer

  /** The words of an answer; the printed numbers are parameters. */
  function ReplyWords(r: Reply, version: string, number: string): seq<string> {
    match r
    case Greeting => ["OK", "1", "proxchunkd", version]
    case Pong => ["OK", "pong"]
    case Reached(_) => ["OK", number]
    case Statistics(_, _, _) => ["OK", "live=" + number, "busy=" + number, "top_mbps=" + number]
    case Lease(url) => ["OK", url, number]
    case Empty => ["ERR", "empty"]
    case ShuttingDown => ["ERR", "shutting-down"]
    case Done => ["OK"]
    case Stopping => ["OK", "shutting-down"]
    case ProtocolError => ["ERR", "protocol"]
    case UnknownCommand => ["ERR", "unknown"]
    case Silence => []
  }

  /** The lines of the answers. */
  function ReplyLine(r: Reply, version: string, number: string): string {
    match r
    case Greeting => "OK" + " " + "1" + " " + "proxchunkd" + " " + version
    case Pong => "OK" + " " + "pong"
    case Reached(_) => "OK" + " " + number
    case Statistics(_, _, _) => "OK" + " " + ("live=" + number) + " " + ("busy=" + number) + " " + ("top_mbps=" + number)
    case Lease(url) => "OK" + " " + url + " " + number
    case Empty => "ERR" + " " + "empty"
    case ShuttingDown => "ERR" + " " + "shutting-down"
    case Done => "OK"
    case Stopping => "OK" + " " + "shutting-down"
    case ProtocolError => "ERR" + " " + "protocol"
    case UnknownCommand => "ERR" + " " + "unknown"
    case Silence => ""
  }

  lemma ReplyLineIs(r: Reply, version: string, number: string)
    ensures Join(ReplyWords(r, version, number)) == ReplyLine(r, version, number)
  {
    match r
    case Greeting => JoinFour("OK", "1", "proxchunkd", version);
    case Statistics(_, _, _) => JoinFour("OK", "live=" + number, "busy=" + number, "top_mbps=" + number);
    case Lease(url) => JoinThree("OK", url, number);
    case Pong => JoinTwo("OK", "pong");
    case Reached(_) => JoinTwo("OK", number);
    case Empty => JoinTwo("ERR", "empty");
    case ShuttingDown => JoinTwo("ERR", "shutting-down");
    case Stopping => JoinTwo("OK", "shutting-down");
    case ProtocolError => JoinTwo("ERR", "protocol");
    case UnknownCommand => JoinTwo("ERR", "unknown");
    case _ =>
  }

  lemma JoinTwo(a: string, b: string)
    ensures Join([a, b]) == a + " " + b
  {
    assert [a, b][1..] == [b];
  }

  lemma JoinThree(a: string, b: string, c: string)
    ensures Join([a, b, c]) == a + " " + b + " " + c
  {
    assert [a, b, c][1..] == [b, c];
    JoinTwo(b, c);
  }

  lemma JoinFour(a: string, b: string, c: string, d: string)
    ensures Join([a, b, c, d]) == a + " " + b + " " + c + " " + d
  {
    assert [a, b, c, d][1..] == [b, c, d];
    JoinThree(b, c, d);
  }

  /** What a greeted connection is answered, by the words of its line, if the command is in order. */
  predicate AnswersWords(tok: seq<string>, reply: Reply)
    requires tok != []
  {
    match tok[0]
    case "PING" => reply == Pong
    case "TARGET" => reply.Reached?
    case "STATS" => reply.Statistics?
    case "ACQUIRE" => reply.Lease? || reply == Empty || reply == ShuttingDown
    case "RELEASE" => reply == Done
    case "STOP" => reply == Stopping
    case _ => reply == UnknownCommand
  }

  /** What a line is answered, by its words. */
  predicate AnsweredByWords(tok: seq<string>, greeted: bool, number: Number, reply: Reply)
    requires tok != []
  {
    if greeted then (reply == ProtocolError <==> BadCommand(tok, number)) && (BadCommand(tok, number) || AnswersWords(tok, reply))
    else reply == if tok == ["HELLO", "1"] then Greeting else ProtocolError
  }

  lemma FitsWords(tok: seq<string>, greeted: bool, number: Number, reply: Reply)
    requires tok != [] && Fits(Parse(tok, greeted, number), reply)
    ensures AnsweredByWords(tok, greeted, number, reply)
  {
    RequestsExactly(tok, greeted, number);
  }

  /** The answers that a request can get. */
  predicate Fits(request: Request, reply: Reply) {
    match request
    case Nothing => reply.Silence?
    case Hello => reply.Greeting?
    case Ping => reply.Pong?
    case Target(_) => reply.Reached?
    case Stats => reply.Statistics?
    case Acquire(_) => reply.Lease? || reply.Empty? || reply.ShuttingDown?
    case Release(_, _, _) => reply.Done?
    case Stop => reply.Stopping?
    case Malformed => reply.ProtocolError?
    case Unknown => reply.UnknownCommand?
  }

  /** What ProxyClient::acquire takes for a lease. */
  function LeaseIn(tok: seq<string>): Option<string> {
    if |tok| >= 3 && tok[0] == "OK" then Some(tok[1]) else None
  }

  /** A lease is an OK with an address and at least one word more. */
  lemma LeaseInExactly(tok: seq<string>, url: string)
    ensures LeaseIn(tok) == Some(url) <==> exists rest :: rest != [] && tok == ["OK", url] + rest
  {
    if LeaseIn(tok) == Some(url) { assert tok == ["OK", url] + tok[2..]; }
  }

  /** The client finds the leased address in the answer to an ACQUIRE, and finds none in any
      other answer to one. */
  lemma LeaseRoundTrip(r: Reply, version: string, number: string)
    requires r.Lease? || r.Empty? || r.ShuttingDown?
    requires IsToken(number) && (r.Lease? ==> IsToken(r.url))
    ensures LeaseIn(Split(Join(ReplyWords(r, version, number)))) == if r.Lease? then Some(r.url) else None
  {
    var words := ReplyWords(r, version, number);
    assert r.Lease? ==> words == ["OK", r.url, number];
    assert forall i :: 0 <= i < |words| ==> IsToken(words[i]);
    SplitJoin(words);
  }
}
