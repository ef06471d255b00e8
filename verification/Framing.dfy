/** Lines over a byte stream that is cut up anyhow (src/proxy_ipc.cpp:47-234), and the daemon's
    loop that reads every line it has been sent (src/proxchunkd.cpp:850-878). */
module Framing {
  import opened Wrappers
  import opened Protocol

  const RECV_SIZE := 256

  // ---- lines in a stream ----

  /** The position of the first newline, or the end. */
  function LineEnd(s: string): (n: nat)
    ensures n <= |s| && forall i :: 0 <= i < n ==> s[i] != '\n'
    ensures n < |s| ==> s[n] == '\n'
  {
    if s == "" || s[0] == '\n' then 0 else LineEnd(s[1..]) + 1
  }

  predicate HasLine(s: string) { LineEnd(s) < |s| }

  function WithoutReturn(s: string): string {
    if s != "" && s[|s| - 1] == '\r' then s[..|s| - 1] else s
  }

  /** The first line of a stream, as it is given to the caller, and what follows it. */
  function FirstLine(s: string): string { WithoutReturn(s[..LineEnd(s)]) }

  function AfterLine(s: string): string
    requires HasLine(s)
  {
    s[LineEnd(s) + 1..]
  }

  /** What follows does not change the first line. */
  lemma LineIsStable(s: string, more: string)
    requires HasLine(s)
    ensures HasLine(s + more) && FirstLine(s + more) == FirstLine(s)
    ensures AfterLine(s + more) == AfterLine(s) + more
  {
    var n, t := LineEnd(s), s + more;
    assert forall i :: 0 <= i <= n ==> t[i] == s[i];
    assert t[LineEnd(t)] == '\n' || LineEnd(t) == |t|;
    assert LineEnd(t) == n;
    assert t[..n] == s[..n];
  }

  /** A return before the newline is not part of the line. */
  lemma ReturnIsDropped(p: string, more: string)
    requires forall i :: 0 <= i < |p| ==> p[i] != '\n'
    ensures var s := p + "\r\n" + more; HasLine(s) && FirstLine(s) == p && AfterLine(s) == more
  {
    var s, n := p + "\r\n", |p| + 1;
    assert s[n] == '\n' && forall i :: 0 <= i < n ==> s[i] != '\n';
    assert LineEnd(s) == n && s[..n] == p + "\r" && s[n + 1..] == "";
    LineIsStable(s, more);
    assert AfterLine(s) + more == more;
  }

  lemma LineIsLong(s: string, more: string)
    requires !HasLine(s)
    ensures LineEnd(s + more) >= |s|
  {
    assert forall i :: 0 <= i < |s| ==> (s + more)[i] == s[i];
  }

  // ---- writing ----

  function Framed(line: string): string {
    if line != "" && line[|line| - 1] == '\n' then line else line + "\n"
  }

  /** A framed line ends in a newline, has nothing but that added, and is not framed twice. */
  lemma FramedOnce(line: string)
    ensures var f := Framed(line); f != "" && f[|f| - 1] == '\n' && (f == line || f == line + "\n") && Framed(f) == f
    ensures Framed(line + "\n") == line + "\n"
  {
  }

  /** What a turn of the send loop meets. */
  datatype SendEvent =
    | Took(n: nat)   // send took n bytes, or all that were left
    | Busy           // interrupted, or writable again after a wait
    | Refused        // timeout, hangup or error

  /** How many bytes the peer takes until it refuses. */
  function Accepts(events: seq<SendEvent>): nat {
    if events == [] || events[0].Refused? || events[0] == Took(0) then 0
    else (if events[0].Took? then events[0].n else 0) + Accepts(events[1..])
  }

  class Writer {
    var wire: string

    constructor () ensures wire == "" { wire := ""; }

    /** ipc_write_line. */
    method WriteLine(line: string, events: seq<SendEvent>) returns (ok: bool)
      modifies this
      ensures ok <==> |line| <= 4095 && Accepts(events) >= |Framed(line)|
      ensures |line| > 4095 ==> wire == old(wire)
      ensures |line| <= 4095 ==>
                wire == old(wire) + Framed(line)[..Min(Accepts(events), |Framed(line)|)]
    {
      if |line| > MAX_LINE - 1 {
        return false;
      }
      var buf := line;
      if buf == "" || buf[|buf| - 1] != '\n' {
        buf := buf + "\n";
      }
      if |buf| > MAX_LINE {
        return false;
      }
      assert buf == Framed(line) && wire == old(wire) + buf[..0];
      var i, off := 0, 0;
      while off < |buf|
        invariant 0 <= i <= |events| && 0 <= off <= |buf| && wire == old(wire) + buf[..off]
        invariant Min(Accepts(events), |buf|) == Min(off + Accepts(events[i..]), |buf|)
        decreases |events| - i
      {
        if i == |events| || events[i].Refused? || events[i] == Took(0) {
          return false;
        }
        AcceptsNext(events, i);
        if events[i].Took? {
          var n := Min(events[i].n, |buf| - off);
          Extended(old(wire), buf, off, n);
          wire := wire + buf[off..off + n];
          off := off + n;
        }
        i := i + 1;
      }
      return true;
    }
  }

  lemma AcceptsNext(events: seq<SendEvent>, i: nat)
    requires i < |events| && !events[i].Refused? && events[i] != Took(0)
    ensures Accepts(events[i..]) == (if events[i].Took? then events[i].n else 0) + Accepts(events[i + 1..])
  {
    assert events[i..][1..] == events[i + 1..];
  }

  lemma Extended(wire: string, buf: string, off: nat, n: nat)
    requires off + n <= |buf|
    ensures (wire + buf[..off]) + buf[off..off + n] == wire + buf[..off + n]
  {
  }

  // ---- reading ----

  /** What a turn of the receive loop meets. */
  datatype RecvEvent =
    | Data(bytes: string)
    | Interrupted
    | Quiet    // nothing to read, or no time left
    | Closed
    | Failed

  datatype ReadResult = Line | Again | Eof | Error | Overflow

  function Flow(events: seq<RecvEvent>): string {
    if events == [] then "" else (if events[0].Data? then events[0].bytes else "") + Flow(events[1..])
  }

  predicate FitsBuffer(events: seq<RecvEvent>) {
    forall i :: 0 <= i < |events| && events[i].Data? ==> 1 <= |events[i].bytes| <= RECV_SIZE
  }

  predicate OnlyData(events: seq<RecvEvent>) {
    forall i :: 0 <= i < |events| ==> events[i].Data? || events[i].Interrupted?
  }

  lemma NextPayload(ps: seq<string>, lines: seq<string>, left: seq<string>)
    requires |lines| < |ps| && lines == ps[..|lines|] && left == ps[|lines|..]
    ensures lines + [left[0]] == ps[..|lines| + 1] && left[1..] == ps[|lines| + 1..]
  {
  }

  /** What a read makes of a stream s, leaving t of it, of which `leftover` is buffered. A line is
      the first of the stream, wherever the stream was cut. */
  predicate Reads(s: string, t: string, leftover: string, result: ReadResult, line: string) {
    match result
    case Line => HasLine(s) && line == FirstLine(s) && |line| <= MAX_LINE - 1 && t == AfterLine(s)
    case Overflow =>
      || (t == s && LineEnd(s) >= MAX_LINE)
      || (HasLine(s) && |FirstLine(s)| > MAX_LINE - 1 && t == AfterLine(s))
    case _ => t == s && !HasLine(leftover) && |leftover| < MAX_LINE && (result == Eof ==> leftover == "")
  }

  /** How the last event of a read that got no line decides its result. */
  predicate Stops(event: RecvEvent, blocking: bool, leftover: string, result: ReadResult) {
    match event
    case Data(_) => !blocking && result == Again
    case Interrupted => false
    case Quiet => result == Again
    case Closed => result == if leftover == "" then Eof else Error
    case Failed => result == Error
  }

  class Reader {
    var leftover: string
    var incoming: seq<RecvEvent>

    constructor (events: seq<RecvEvent>)
      requires FitsBuffer(events)
      ensures Valid() && leftover == "" && incoming == events
    {
      leftover, incoming := "", events;
    }

    /** The receive buffer stays small on every stream. */
    predicate Valid()
      reads this
    {
      |leftover| <= MAX_LINE - 1 + RECV_SIZE && FitsBuffer(incoming)
    }

    /** Everything sent by the peer and not yet given to the caller. */
    function Unread(): string
      reads this
    {
      leftover + Flow(incoming)
    }

    method ExtractLine() returns (found: bool, line: string)
      modifies this`leftover
      ensures found == HasLine(old(leftover))
      ensures found ==> line == FirstLine(old(leftover)) && leftover == AfterLine(old(leftover))
      ensures !found ==> leftover == old(leftover)
    {
      var pos := 0;
      while pos < |leftover| && leftover[pos] != '\n'
        invariant 0 <= pos <= |leftover| && forall i :: 0 <= i < pos ==> leftover[i] != '\n'
      {
        pos := pos + 1;
      }
      assert LineEnd(leftover) == pos;
      if pos == |leftover| {
        return false, "";
      }
      line := leftover[..pos];
      leftover := leftover[pos + 1..];
      if line != "" && line[|line| - 1] == '\r' {
        line := line[..|line| - 1];
      }
      found := true;
    }

    /** The two checks that are made before the first receive and after every one; `more` is what
        is still to be received. */
    method TakeBuffered(ghost more: string) returns (result: ReadResult, line: string)
      modifies this`leftover
      ensures result != Again ==> Reads(old(leftover) + more, leftover + more, leftover, result, line)
      ensures result in {Line, Again, Overflow} && |leftover| <= |old(leftover)|
      ensures result == Again ==> leftover == old(leftover) && !HasLine(leftover) && |leftover| < MAX_LINE
    {
      var found;
      found, line := ExtractLine();
      if found {
        result := if |line| > MAX_LINE - 1 then Overflow else Line;
        LineIsStable(old(leftover), more);
      } else if |leftover| >= MAX_LINE {
        result := Overflow;
        LineIsLong(leftover, more);
      } else {
        result := Again;
      }
    }

    method ReceiveData(bytes: string, blocking: bool) returns (stop: bool, result: ReadResult, line: string)
      requires Valid() && !HasLine(leftover) && |leftover| < MAX_LINE && |bytes| <= RECV_SIZE
      modifies this`leftover
      ensures Valid()
      ensures stop ==> Reads(old(leftover) + (bytes + Flow(incoming)), Unread(), leftover, result, line)
      ensures stop ==> result in {Line, Overflow} || (result == Again && !blocking)
      ensures !stop ==> blocking && Unread() == old(leftover) + (bytes + Flow(incoming))
      ensures !stop ==> !HasLine(leftover) && |leftover| < MAX_LINE
    {
      ghost var rest := Flow(incoming);
      Associative(leftover, bytes, rest);
      leftover := leftover + bytes;
      result, line := TakeBuffered(rest);
      stop := result != Again || !blocking;
    }

    /** One turn of the receive loop. */
    method ReceiveOnce(blocking: bool) returns (stop: bool, result: ReadResult, line: string)
      requires Valid() && incoming != [] && !HasLine(leftover) && |leftover| < MAX_LINE
      modifies this
      ensures Valid() && incoming == old(incoming)[1..]
      ensures stop ==> Reads(old(Unread()), Unread(), leftover, result, line)
      ensures stop && result in {Again, Eof, Error} ==> Stops(old(incoming)[0], blocking, leftover, result)
      ensures !stop ==> Unread() == old(Unread()) && !HasLine(leftover) && |leftover| < MAX_LINE
      ensures !stop ==> old(incoming)[0].Interrupted? || (blocking && old(incoming)[0].Data?)
    {
      var event := incoming[0];
      incoming := incoming[1..];
      match event
      case Interrupted => return false, Again, "";
      case Data(bytes) =>
        stop, result, line := ReceiveData(bytes, blocking);
      case Quiet => stop, result, line := true, Again, "";
      case Failed => stop, result, line := true, Error, "";
      case Closed => stop, result, line := true, if leftover == "" then Eof else Error, "";
    }

    /** ipc_read_line. */
    method ReadLine(blocking: bool) returns (result: ReadResult, line: string)
      requires Valid()
      modifies this
      ensures Valid() && Reads(old(Unread()), Unread(), leftover, result, line)
      ensures |leftover| <= 4351 && (result == Line ==> |line| <= 4095)
      ensures |incoming| <= |old(incoming)| && incoming == old(incoming)[|old(incoming)| - |incoming|..]
      ensures blocking && OnlyData(old(incoming)) ==>
                && OnlyData(incoming) && result != Eof && result != Error
                && (result == Again ==> incoming == [])
      // why it stopped without a line
      ensures result in {Again, Eof, Error} ==>
                var used := |old(incoming)| - |incoming|;
                || (result == Again && incoming == [])
                || (used > 0 && Stops(old(incoming)[used - 1], blocking, leftover, result))
    {
      ghost var events, k := incoming, 0;
      result, line := TakeBuffered(Flow(incoming));
      if result != Again {
        return;
      }
      while incoming != []
        invariant Valid() && 0 <= k <= |events| && incoming == events[k..]
        invariant Unread() == old(Unread()) && !HasLine(leftover) && |leftover| < MAX_LINE
        decreases |incoming|
      {
        assert incoming[0] == events[k] && incoming[1..] == events[k + 1..];
        var stop;
        stop, result, line := ReceiveOnce(blocking);
        k := k + 1;
        if stop {
          return;
        }
      }
      return Again, "";
    }

    /** ReadLine, on a stream that holds the payloads ps and the beginning of another. */
    method ReadPayload(blocking: bool, ghost ps: seq<string>, ghost tail: string) returns (result: ReadResult, line: string)
      requires Valid() && forall i :: 0 <= i < |ps| ==> Plain(ps[i])
      requires Unread() == Wire(ps) + tail && !HasLine(tail) && |tail| < MAX_LINE
      modifies this
      ensures Valid() && result != Overflow
      ensures result == Line ==> ps != [] && line == ps[0] && Unread() == Wire(ps[1..]) + tail
      ensures result != Line ==> Unread() == Wire(ps) + tail && !HasLine(leftover)
      ensures blocking && OnlyData(old(incoming)) ==>
                OnlyData(incoming) && (result == Line || (result == Again && ps == []))
      ensures result == Again && incoming == [] ==> ps == []
    {
      result, line := ReadLine(blocking);
      TakesNext(ps, tail, Unread(), leftover, result, line);
    }

    /** Every line the peer has sent, as the daemon takes them from a readable connection: in order
        and unchanged, and what is not yet complete is still to come. */
    method ReadBurst(blocking: bool, ghost ps: seq<string>, ghost tail: string) returns (lines: seq<string>, last: ReadResult)
      requires Valid() && forall i :: 0 <= i < |ps| ==> Plain(ps[i])
      requires Unread() == Wire(ps) + tail && !HasLine(tail) && |tail| < MAX_LINE
      modifies this
      ensures Valid() && last != Line && last != Overflow && !HasLine(leftover)
      ensures |lines| <= |ps| && lines == ps[..|lines|] && Unread() == Wire(ps[|lines|..]) + tail
      ensures blocking && OnlyData(old(incoming)) ==> last == Again && lines == ps
      // once nothing more comes, everything sent has been read
      ensures last == Again && incoming == [] ==> lines == ps
    {
      lines := [];
      ghost var left, steady := ps, blocking && OnlyData(incoming);
      var line;
      last, line := ReadPayload(blocking, left, tail);
      while last == Line
        invariant Valid() && last != Overflow && |lines| <= |ps| && lines == ps[..|lines|] && left == ps[|lines|..]
        invariant last == Line ==> left != [] && line == left[0] && Unread() == Wire(left[1..]) + tail
        invariant last != Line ==> Unread() == Wire(left) + tail && !HasLine(leftover)
        invariant last == Again && incoming == [] ==> left == []
        invariant steady ==> OnlyData(incoming) && (last == Line || (last == Again && left == []))
        decreases |left|
      {
        NextPayload(ps, lines, left);
        lines, left := lines + [line], left[1..];
        last, line := ReadPayload(blocking, left, tail);
      }
    }
  }

  // ---- the round trip ----

  /** A payload that the protocol can carry: short enough, one line, no trailing return. */
  predicate Plain(p: string) {
    |p| <= MAX_LINE - 1 && (forall i :: 0 <= i < |p| ==> p[i] != '\n') && (p == "" || p[|p| - 1] != '\r')
  }

  /** What the peer has sent after writing all of the payloads. */
  function Wire(ps: seq<string>): string {
    if ps == [] then "" else Framed(ps[0]) + Wire(ps[1..])
  }

  lemma FirstOf(p: string, more: string)
    requires Plain(p)
    ensures var s := Framed(p) + more;
            HasLine(s) && LineEnd(s) < MAX_LINE && FirstLine(s) == p && AfterLine(s) == more
  {
    var s, n := p + "\n", |p|;
    assert Framed(p) == s;
    assert s[n] == '\n' && forall i :: 0 <= i < n ==> s[i] == p[i];
    assert LineEnd(s) == n && s[..n] == p && s[n + 1..] == "";
    LineIsStable(s, more);
    assert LineEnd(s + more) == n;
    assert AfterLine(s) + more == more;
  }

  lemma Associative(a: string, b: string, c: string)
    ensures (a + b) + c == a + (b + c)
  {
  }

  lemma WireHead(ps: seq<string>, tail: string)
    requires ps != [] && Plain(ps[0])
    ensures var s := Wire(ps) + tail;
            HasLine(s) && LineEnd(s) < MAX_LINE && FirstLine(s) == ps[0] && AfterLine(s) == Wire(ps[1..]) + tail
  {
    var more := Wire(ps[1..]);
    FirstOf(ps[0], more + tail);
    Associative(Framed(ps[0]), more, tail);
  }

  /** One read of a stream of payloads: the next payload, or nothing lost. */
  lemma TakesNext(ps: seq<string>, tail: string, t: string, leftover: string, result: ReadResult, line: string)
    requires forall i :: 0 <= i < |ps| ==> Plain(ps[i])
    requires !HasLine(tail) && |tail| < MAX_LINE
    requires Reads(Wire(ps) + tail, t, leftover, result, line)
    ensures result != Overflow
    ensures result == Line ==> ps != [] && line == ps[0] && t == Wire(ps[1..]) + tail
    ensures result != Line ==> t == Wire(ps) + tail
    ensures result == Again && leftover == t ==> ps == []
  {
    if ps == [] {
      assert Wire(ps) + tail == tail;
    } else {
      WireHead(ps, tail);
    }
  }

  lemma {:induction false} WireAppend(ps: seq<string>, p: string)
    ensures Wire(ps + [p]) == Wire(ps) + Framed(p)
  {
    if ps == [] {
      assert ps + [p] == [p];
    } else {
      assert (ps + [p])[1..] == ps[1..] + [p];
      WireAppend(ps[1..], p);
    }
  }

  lemma FragmentHasNoLine(p: string, n: nat)
    requires Plain(p) && n < |Framed(p)|
    ensures !HasLine(Framed(p)[..n]) && n < MAX_LINE
  {
    var s := Framed(p)[..n];
    assert Framed(p) == p + "\n";
    assert forall i :: 0 <= i < n ==> s[i] == p[i];
  }

  lemma WholeLine(ps: seq<string>, n: nat)
    requires n < |ps|
    ensures Wire(ps[..n + 1]) == Wire(ps[..n]) + Framed(ps[n])
    ensures Framed(ps[n])[..|Framed(ps[n])|] == Framed(ps[n])
  {
    WireAppend(ps[..n], ps[n]);
    assert ps[..n] + [ps[n]] == ps[..n + 1];
  }

  /** WriteLine, for a payload that follows others. */
  method WritePayload(writer: Writer, ghost ps: seq<string>, ghost n: nat, p: string, events: seq<SendEvent>)
    returns (ok: bool, ghost tail: string)
    requires n < |ps| && p == ps[n] && Plain(p) && writer.wire == Wire(ps[..n])
    modifies writer
    ensures ok <==> Accepts(events) >= |Framed(p)|
    ensures ok ==> writer.wire == Wire(ps[..n + 1])
    ensures !ok ==> writer.wire == Wire(ps[..n]) + tail && tail < Framed(p) && !HasLine(tail) && |tail| < MAX_LINE
  {
    ok := writer.WriteLine(p, events);
    WholeLine(ps, n);
    tail := "";
    if !ok {
      tail := Framed(p)[..Accepts(events)];
      FragmentHasNoLine(p, Accepts(events));
    }
  }

  /** One end of a connection: payloads written in turn until a write fails. The stream is then one
      that ReadBurst takes apart again into the payloads that were written. */
  method SendAll(writer: Writer, ps: seq<string>, sends: seq<seq<SendEvent>>) returns (n: nat, ghost tail: string)
    requires writer.wire == "" && |sends| == |ps|
    requires forall i :: 0 <= i < |ps| ==> Plain(ps[i])
    modifies writer
    ensures n <= |ps| && writer.wire == Wire(ps[..n]) + tail && !HasLine(tail) && |tail| < MAX_LINE
    ensures n == |ps| ==> tail == ""
    ensures forall i :: 0 <= i < n ==> Accepts(sends[i]) >= |Framed(ps[i])|
    ensures n < |ps| ==> Accepts(sends[n]) < |Framed(ps[n])| && tail < Framed(ps[n])
  {
    n, tail := 0, "";
    assert ps[..0] == [];
    while n < |ps|
      invariant n <= |ps| && writer.wire == Wire(ps[..n])
      invariant forall i :: 0 <= i < n ==> Accepts(sends[i]) >= |Framed(ps[i])|
    {
      var ok;
      ok, tail := WritePayload(writer, ps, n, ps[n], sends[n]);
      if !ok {
        return;
      }
      n := n + 1;
    }
    tail := "";
    assert Wire(ps[..n]) + "" == Wire(ps[..n]);
  }
}
