/** A run of the daemon in which a client releases what it does not hold (src/proxchunkd.cpp:490-544). */
module Mishaps {
  import opened Wrappers
  import opened ProxyPool
  import opened PoolProperties
  import opened Protocol
  import opened LeaseSystem

  /** One proxy, two connections: the first leases the proxy, the second releases and leases it. */
  function StepOf(r: Row, i: nat): Action {
    var leased := Some(r.(busy := true));
    if i == 0 then Install([r])
    else if i <= 2 then Accept
    else if i == 3 then Line(0, Hello, None)
    else if i == 4 then Line(1, Hello, None)
    else if i == 5 then Line(0, Acquire([]), leased)
    else if i == 6 then Enter(true)
    else if i == 7 then Line(1, Release(r.address, true, 0.0), None)
    else if i == 8 then Erase
    else if i == 9 then Line(1, Acquire([]), leased)
    else Enter(true)
  }

  function One(rows: seq<Row>, conns: seq<Conn>, poll: Poll): Sys { Sys(rows, false, 1, conns, poll, false, None) }

  function Two(rows: seq<Row>, first: seq<Address>, second: seq<Address>, poll: Poll): Sys {
    One(rows, [Conn(true, true, first), Conn(true, true, second)], poll)
  }

  function StateOf(r: Row, i: nat): Sys {
    var leased, u, new_ := r.(busy := true), r.address, Conn(true, false, []);
    if i == 0 then One([], [], Idle)
    else if i == 1 then One([r], [], Idle)
    else if i == 2 then One([r], [new_], Idle)
    else if i == 3 then One([r], [new_, new_], Idle)
    else if i == 4 then One([r], [Conn(true, true, []), new_], Idle)
    else if i == 5 then Two([r], [], [], Idle)
    else if i == 6 then Two([leased], [], [], Granted(0, u))
    else if i == 7 then Two([leased], [u], [], Idle)
    else if i == 8 then Two([r], [u], [], Freed(1, u))
    else if i == 9 then Two([r], [u], [], Idle)
    else if i == 10 then Two([leased], [u], [], Granted(1, u))
    else Two([leased], [u], [u], Idle)
  }

  predicate Good(r: Row) { RowOk(r) && !r.busy && r.fails == 0 && r.targetOk }

  lemma OnceInstalled(r: Row)
    requires Good(r)
    ensures Installed([], [r], 1, [r])
  {
    assert [r] == [] + [r];
    MarkAppend([], r, map[]);
    FilterAppend([], r, true);
    FilterAppend([], r, false);
    assert Kept([r], 1) == [r];
    assert InstalledVia([], [r], 1, [], [r], [r]);
  }

  lemma FirstSteps(r: Row, i: nat)
    requires Good(r) && i < 3
    ensures Next(StateOf(r, i), StepOf(r, i), StateOf(r, i + 1))
  {
    if i == 0 {
      OnceInstalled(r);
    } else {
      assert StateOf(r, i + 1).conns == StateOf(r, i).conns + [Conn(true, false, [])];
    }
  }

  lemma Greets(r: Row, i: nat)
    requires Good(r) && 3 <= i <= 4
    ensures Next(StateOf(r, i), StepOf(r, i), StateOf(r, i + 1))
  {
    var s, t := StateOf(r, i), StateOf(r, i + 1);
    assert s.conns[i - 3 := t.conns[i - 3]] == t.conns;
  }

  lemma Grants(r: Row, i: nat)
    requires Good(r) && (i == 5 || i == 9)
    ensures Next(StateOf(r, i), StepOf(r, i), StateOf(r, i + 1))
  {
    var leased := r.(busy := true);
    assert [r][0 := leased] == [leased];
    assert AcquiredAt([r], false, [], [leased], leased, 0);
  }

  lemma Enters(r: Row, i: nat)
    requires Good(r) && (i == 6 || i == 10)
    ensures Next(StateOf(r, i), StepOf(r, i), StateOf(r, i + 1))
  {
    var s, t := StateOf(r, i), StateOf(r, i + 1);
    var cid := if i == 6 then 0 else 1;
    assert s.conns[cid].held + [r.address] == [r.address];
    assert s.conns[cid := t.conns[cid]] == t.conns;
  }

  lemma Releases(r: Row, i: nat)
    requires Good(r) && 7 <= i <= 8
    ensures Next(StateOf(r, i), StepOf(r, i), StateOf(r, i + 1))
  {
    var s, t := StateOf(r, i), StateOf(r, i + 1);
    if i == 7 {
      var leased := r.(busy := true);
      assert ReleasedRow(leased, true, 0.0) == r;
      AfterReleaseAt([leased], r.address, true, 0.0, 0);
      assert [leased][0 := r] == [r];
      assert Released(s.rows, r.address, true, 0.0, t.rows);
    } else {
      assert s.conns[1 := t.conns[1]] == t.conns;
    }
  }

  /** A run from the start in which connection 1 releases the proxy that connection 0 has leased,
      and then leases it itself: the proxy is on both held lists. */
  lemma StrangerLeasesIt(r: Row) returns (states: seq<Sys>, actions: seq<Action>)
    requires Good(r)
    ensures IsRun(states, actions) && |actions| == 11
    ensures forall k :: 0 <= k < 11 && k != 7 ==> Honest(states[k], actions[k])
    ensures !Honest(states[7], actions[7])
    ensures var s := states[11];
            s.poll.Idle? && |s.conns| == 2 && r.address in s.conns[0].held && r.address in s.conns[1].held
  {
    states, actions := seq(12, i requires 0 <= i < 12 => StateOf(r, i)), seq(11, i requires 0 <= i < 11 => StepOf(r, i));
    forall i | 0 <= i < 11
      ensures Next(states[i], actions[i], states[i + 1])
    {
      if i < 3 {
        FirstSteps(r, i);
      } else if i < 5 {
        Greets(r, i);
      } else if i == 5 || i == 9 {
        Grants(r, i);
      } else if i == 6 || i == 10 {
        Enters(r, i);
      } else {
        Releases(r, i);
      }
    }
  }
}
