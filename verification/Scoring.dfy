/** The scheduler of the speed tests (src/proxy_engine.cpp:608-754).

    The transfers are the environment: which of the running ones are reported as done, in which
    order and with what result, what curl says is still running, and when a stop is requested. */
module Scoring {
  import opened Counting
  import opened ProxyPool
  import opened PoolProperties

  const DEFAULT_INFLIGHT := 96
  const MIN_TEST_BYTES := 1024
  const MIN_SPEED := 0.02

  datatype Setup = Setup(candidates: seq<Address>, mustFirst: nat, wantLive: nat, maxInflight: int) {
    function Total(): nat { |candidates| }

    function Cap(): nat { if maxInflight > 0 then maxInflight else DEFAULT_INFLIGHT }
  }

  /** How a transfer ended. */
  datatype Transfer = Transfer(curlOk: bool, bytes: nat, http: int, secs: real)

  predicate Good(t: Transfer) {
    t.curlOk && t.bytes >= MIN_TEST_BYTES && (t.http == 0 || t.http == 200 || t.http == 206)
  }

  function Speed(t: Transfer): real {
    (t.bytes as real / 1048576.0) / (if t.secs < 0.01 then 0.01 else t.secs)
  }

  /** One report of a finished transfer; whether a handle for the next candidate can be made, and
      whether a stop is requested at that time. */
  datatype Message = Message(job: nat, result: Transfer, created: bool, stop: bool)

  datatype Round = Round(stopBefore: bool, messages: seq<Message>, still: nat, stopAfter: bool)

  datatype Status = Fresh | Refused | Running | Finished

  predicate IsRunning(x: Status) { x.Running? }

  /** The variables of the pass. `status` stands for the job list; `refused`, `halted` and `log` are
      history: how many candidates got no handle, whether a stop kept one from being taken up, and
      the reports so far. */
  datatype Pass = Pass(
    next: nat,
    completed: nat,
    inflight: int,
    curlOk: nat,
    tested: seq<Row>,
    stopAdding: bool,
    status: seq<Status>,
    refused: nat,
    halted: bool,
    log: seq<(nat, Transfer)>)
  {
    /** Enough was found while transfers are still running. */
    predicate MustCancel() { stopAdding && inflight > 0 }
  }

  function Begin(u: Setup): Pass {
    Pass(0, 0, 0, 0, [], false, seq(u.Total(), i => Fresh), 0, false, [])
  }

  /** add_one, and whether it may be called again. */
  function AddOne(u: Setup, p: Pass, created: bool, stop: bool): (r: (Pass, bool))
    requires |p.status| == u.Total()
    ensures |r.0.status| == u.Total() && (r.1 ==> p.next < u.Total() && r.0.next == p.next + 1)
  {
    if p.stopAdding || p.next >= u.Total() || p.inflight >= u.Cap() then (p, false)
    else if stop then (p.(halted := true), false)
    else if !created then (p.(next := p.next + 1, status := p.status[p.next := Refused], refused := p.refused + 1), true)
    else (p.(next := p.next + 1, status := p.status[p.next := Running], inflight := p.inflight + 1), true)
  }

  function ScoredRow(address: Address, t: Transfer): Row { Row(address, Speed(t), 0, true, false, true) }

  /** A finished transfer is entered. */
  function Finish(u: Setup, p: Pass, m: Message): Pass
    requires |p.status| == u.Total() && m.job < u.Total()
  {
    var rows := if Good(m.result) && Speed(m.result) > MIN_SPEED then [ScoredRow(u.candidates[m.job], m.result)] else [];
    p.(curlOk := p.curlOk + (if m.result.curlOk then 1 else 0),
       tested := p.tested + rows,
       inflight := p.inflight - 1,
       completed := p.completed + 1,
       status := p.status[m.job := Finished],
       log := p.log + [(m.job, m.result)])
  }

  function CheckQuota(u: Setup, p: Pass): Pass {
    if |p.tested| >= u.wantLive && p.next >= u.mustFirst then p.(stopAdding := true) else p
  }

  /** The loop that takes up candidates before the first transfer. */
  function Filled(u: Setup, p: Pass, creates: nat -> bool, stops: nat -> bool): (q: Pass)
    requires |p.status| == u.Total()
    ensures |q.status| == u.Total()
    decreases u.Total() - p.next
  {
    if p.inflight >= u.Cap() then p
    else
      var (q, more) := AddOne(u, p, creates(p.next), stops(p.next));
      if more then Filled(u, q, creates, stops) else q
  }

  /** A message; curl reports a transfer only while it is running. */
  function OneRead(u: Setup, p: Pass, m: Message): (q: Pass)
    requires |p.status| == u.Total()
    ensures |q.status| == u.Total()
  {
    if m.job >= u.Total() || p.status[m.job] != Running then p
    else
      var q := CheckQuota(u, Finish(u, p, m));
      if q.stopAdding then q else AddOne(u, q, m.created, m.stop).0
  }

  function AllRead(u: Setup, p: Pass, messages: seq<Message>): (q: Pass)
    requires |p.status| == u.Total()
    ensures |q.status| == u.Total()
  {
    if messages == [] then p
    else
      var n := |messages| - 1;
      OneRead(u, AllRead(u, p, messages[..n]), messages[n])
  }

  /** A stop ends the pass before the next round; so does curl, when nothing runs any more. */
  lemma PlayedStops(u: Setup, p: Pass, still: nat, rounds: seq<Round>)
    requires |p.status| == u.Total()
    ensures still == 0 || rounds == [] || rounds[0].stopBefore ==> Played(u, p, still, rounds) == (p, false)
    ensures still > 0 && rounds != [] && !rounds[0].stopBefore ==>
              var q := AllRead(u, p, rounds[0].messages);
              if q.MustCancel() || rounds[0].stopAfter then Played(u, p, still, rounds) == (q, true)
              else Played(u, p, still, rounds) == Played(u, q, rounds[0].still, rounds[1..])
  {
  }

  predicate Cancels(p: Pass, round: Round) { (p.stopAdding && p.inflight > 0) || round.stopAfter }

  /** The main loop: the state it leaves, and whether it leaves by cancelling what is running. */
  function Played(u: Setup, p: Pass, still: nat, rounds: seq<Round>): (Pass, bool)
    requires |p.status| == u.Total()
    decreases |rounds|
  {
    if still == 0 || rounds == [] || rounds[0].stopBefore then (p, false)
    else
      var q := AllRead(u, p, rounds[0].messages);
      if Cancels(q, rounds[0]) then (q, true) else Played(u, q, rounds[0].still, rounds[1..])
  }

  // ---- what a pass keeps ----

  /** The rows that the reports so far have earned: one for each good and fast enough transfer, in
      the order of the reports. */
  function Earned(u: Setup, log: seq<(nat, Transfer)>): seq<Row>
    requires forall i :: 0 <= i < |log| ==> log[i].0 < u.Total()
  {
    if log == [] then []
    else
      var n := |log| - 1;
      assert log[n].0 < u.Total();
      var (job, t) := log[n];
      Earned(u, log[..n]) + if Good(t) && Speed(t) > MIN_SPEED then [ScoredRow(u.candidates[job], t)] else []
  }

  predicate RanOk(x: (nat, Transfer)) { x.1.curlOk }

  predicate LogOk(u: Setup, p: Pass)
    requires |p.status| == u.Total()
  {
    && (forall i :: 0 <= i < |p.log| ==> p.log[i].0 < u.Total() && p.status[p.log[i].0] == Finished)
    && (forall i, j :: 0 <= i < j < |p.log| ==> p.log[i].0 != p.log[j].0)
  }

  /** Every candidate taken up was refused a handle, is in flight, or was reported once; the rows
      are the earned ones; and never are more transfers in flight than allowed. */
  predicate PassOk(u: Setup, p: Pass) {
    && |p.status| == u.Total() && p.next <= u.Total()
    && (forall k :: 0 <= k < u.Total() ==> (p.status[k] == Fresh <==> k >= p.next))
    && p.inflight == Count(IsRunning, p.status) <= u.Cap()
    && |p.log| + p.inflight + p.refused == p.next
    && LogOk(u, p)
    && p.completed == |p.log| && p.curlOk == Count(RanOk, p.log) && p.tested == Earned(u, p.log)
    && |p.tested| <= p.curlOk
    && (p.stopAdding ==> |p.tested| >= u.wantLive && p.next >= u.mustFirst)
  }

  /** As long as no stop is requested and the quota is not met, the pass has nothing left to take up
      or no slot to spare: a slot is given away only with a candidate that gets no handle. */
  predicate Saturated(u: Setup, p: Pass) {
    p.halted || p.stopAdding || p.next == u.Total()
    || p.inflight + p.refused >= (if u.maxInflight > 0 then u.maxInflight else 96)
  }

  /** Once a transfer has been entered, the pass takes up nothing beyond the candidates it must test, if
      it has enough rows. */
  predicate QuotaOk(u: Setup, p: Pass) {
    p.completed > 0 && |p.tested| >= u.wantLive && p.next > u.mustFirst ==> p.stopAdding
  }

  predicate Going(u: Setup, p: Pass) { PassOk(u, p) && Saturated(u, p) && QuotaOk(u, p) }

  lemma BeginOk(u: Setup)
    ensures PassOk(u, Begin(u))
  {
    CountBounds(IsRunning, Begin(u).status);
  }

  lemma AddOneOk(u: Setup, p: Pass, created: bool, stop: bool)
    requires PassOk(u, p)
    ensures var (q, more) := AddOne(u, p, created, stop);
            && PassOk(u, q) && q.completed == p.completed && q.curlOk == p.curlOk && q.tested == p.tested
            && (p.inflight + p.refused >= u.Cap() - 1 || !more ==> Saturated(u, q))
            && (stop ==> q.next == p.next && !more)
  {
    if p.next < u.Total() {
      CountUpdate(IsRunning, p.status, p.next, if created then Running else Refused);
      assert p.status[p.next] == Fresh;
    }
  }

  lemma FinishLogOk(u: Setup, p: Pass, m: Message)
    requires PassOk(u, p) && m.job < u.Total() && p.status[m.job] == Running
    ensures LogOk(u, Finish(u, p, m))
  {
  }

  lemma FinishCounts(log: seq<(nat, Transfer)>, entry: (nat, Transfer))
    ensures Count(RanOk, log + [entry]) == Count(RanOk, log) + if entry.1.curlOk then 1 else 0
  {
    assert (log + [entry])[..|log|] == log;
  }

  lemma FinishEarns(u: Setup, log: seq<(nat, Transfer)>, entry: (nat, Transfer))
    requires entry.0 < u.Total() && forall i :: 0 <= i < |log| ==> log[i].0 < u.Total()
    ensures Earned(u, log + [entry])
            == Earned(u, log) + if Good(entry.1) && Speed(entry.1) > MIN_SPEED then [ScoredRow(u.candidates[entry.0], entry.1)] else []
  {
    assert (log + [entry])[..|log|] == log;
  }

  lemma FinishLog(u: Setup, p: Pass, m: Message)
    requires PassOk(u, p) && m.job < u.Total() && p.status[m.job] == Running
    ensures var q := Finish(u, p, m);
            LogOk(u, q) && q.tested == Earned(u, q.log) && q.curlOk == Count(RanOk, q.log)
  {
    FinishLogOk(u, p, m);
    FinishCounts(p.log, (m.job, m.result));
    FinishEarns(u, p.log, (m.job, m.result));
  }

  lemma FinishOk(u: Setup, p: Pass, m: Message)
    requires PassOk(u, p) && m.job < u.Total() && p.status[m.job] == Running
    ensures var q := CheckQuota(u, Finish(u, p, m));
            PassOk(u, q) && q.completed == p.completed + 1 && p.curlOk <= q.curlOk && |p.tested| <= |q.tested|
  {
    FinishLog(u, p, m);
    CountUpdate(IsRunning, p.status, m.job, Finished);
  }

  // ---- the pass ----

  /** What the progress callback is told. */
  datatype Report = Report(done: nat, total: nat, passed: nat, curlOk: nat, final: bool)

  predicate ReportsOk(reports: seq<Report>, total: nat) {
    && (forall i :: 0 <= i < |reports| ==>
          var r := reports[i]; r.passed <= r.curlOk <= r.done <= r.total == total)
    && (forall i, j :: 0 <= i < j < |reports| ==>
          !reports[i].final && reports[i].done <= reports[j].done && reports[i].passed <= reports[j].passed
          && reports[i].curlOk <= reports[j].curlOk)
  }

  function Emitted(u: Setup, p: Pass, final: bool): Report {
    Report(p.completed, u.Total(), |p.tested|, p.curlOk, final)
  }

  /** Reports so far lead up to the state p. */
  predicate Upto(reports: seq<Report>, u: Setup, p: Pass) {
    && ReportsOk(reports, u.Total())
    && forall i :: 0 <= i < |reports| ==>
         !reports[i].final && reports[i].done <= p.completed && reports[i].passed <= |p.tested|
         && reports[i].curlOk <= p.curlOk
  }

  lemma OneMoreReport(reports: seq<Report>, u: Setup, p: Pass, r: Report)
    requires Upto(reports, u, p)
    requires r.passed == |p.tested| && r.curlOk == p.curlOk && r.curlOk <= p.completed <= r.done <= r.total == u.Total()
    requires |p.tested| <= p.curlOk && (!r.final ==> r.done == p.completed)
    ensures ReportsOk(reports + [r], u.Total())
    ensures !r.final ==> Upto(reports + [r], u, p)
  {
  }

  lemma UptoGrows(reports: seq<Report>, u: Setup, p: Pass, q: Pass)
    requires Upto(reports, u, p)
    requires p.completed <= q.completed && p.curlOk <= q.curlOk && |p.tested| <= |q.tested|
    ensures Upto(reports, u, q)
  {
  }

  lemma OneReadOk(u: Setup, p: Pass, m: Message)
    requires PassOk(u, p) && Saturated(u, p)
    ensures var q := OneRead(u, p, m);
            && PassOk(u, q) && Saturated(u, q)
            && p.completed <= q.completed && p.curlOk <= q.curlOk && |p.tested| <= |q.tested|
            && (QuotaOk(u, p) ==> QuotaOk(u, q)) && (m.stop ==> q.next == p.next)
            && (q.completed > p.completed && |q.tested| >= u.wantLive && p.next >= u.mustFirst ==> q.stopAdding && q.next == p.next)
  {
    if m.job < u.Total() && p.status[m.job] == Running {
      FinishOk(u, p, m);
      AddOneOk(u, CheckQuota(u, Finish(u, p, m)), m.created, m.stop);
    }
  }

  /** No stop was requested when one of the first n candidates was taken up. */
  predicate NoStopBefore(stops: nat -> bool, n: nat) { forall k: nat :: k < n ==> !stops(k) }

  /** Before the first transfer: no stop has kept back a candidate that was taken up. */
  predicate Filling(u: Setup, p: Pass, stops: nat -> bool) {
    PassOk(u, p) && p.completed == 0 && !p.stopAdding && NoStopBefore(stops, p.next)
  }

  lemma FillStep(u: Setup, p: Pass, created: bool, stops: nat -> bool)
    requires Filling(u, p, stops)
    ensures var (q, more) := AddOne(u, p, created, stops(p.next)); Filling(u, q, stops) && (more || Saturated(u, q))
  {
    AddOneOk(u, p, created, stops(p.next));
  }

  /** The candidates taken up before the first transfer. */
  method FillUp(u: Setup, creates: nat -> bool, stops: nat -> bool) returns (p: Pass)
    ensures p == Filled(u, Begin(u), creates, stops)
    ensures Filling(u, p, stops) && Saturated(u, p)
  {
    BeginOk(u);
    p := Begin(u);
    var more := true;
    while p.inflight < u.Cap() && more
      invariant Filling(u, p, stops) && (more || Saturated(u, p))
      invariant Filled(u, Begin(u), creates, stops) == if more then Filled(u, p, creates, stops) else p
      decreases u.Total() - p.next, more
    {
      FillStep(u, p, creates(p.next), stops);
      var (q, again) := AddOne(u, p, creates(p.next), stops(p.next));
      p, more := q, again;
    }
  }

  /** The pass has come from p to q. */
  predicate Beyond(u: Setup, p: Pass, q: Pass) {
    && PassOk(u, q) && Saturated(u, q) && (QuotaOk(u, p) ==> QuotaOk(u, q))
    && p.completed <= q.completed && p.curlOk <= q.curlOk && |p.tested| <= |q.tested|
  }

  lemma ReadStep(u: Setup, p: Pass, messages: seq<Message>, i: nat)
    requires i < |messages| && |p.status| == u.Total() && Beyond(u, p, AllRead(u, p, messages[..i]))
    ensures var q := OneRead(u, AllRead(u, p, messages[..i]), messages[i]);
            AllRead(u, p, messages[..i + 1]) == q && Beyond(u, p, q)
  {
    OneReadOk(u, AllRead(u, p, messages[..i]), messages[i]);
    assert messages[..i + 1][..i] == messages[..i];
  }

  /** The messages of one round. */
  method ReadMessages(u: Setup, p0: Pass, messages: seq<Message>) returns (p: Pass)
    requires PassOk(u, p0) && Saturated(u, p0)
    ensures p == AllRead(u, p0, messages) && Beyond(u, p0, p)
  {
    p := p0;
    for i := 0 to |messages|
      invariant p == AllRead(u, p0, messages[..i]) && Beyond(u, p0, p)
    {
      var m := messages[i];
      ReadStep(u, p0, messages, i);
      if m.job < u.Total() && p.status[m.job] == Running {
        p := CheckQuota(u, Finish(u, p, m));
        if !p.stopAdding {
          p := AddOne(u, p, m.created, m.stop).0;
        }
      }
    }
    assert messages[..|messages|] == messages;
  }

  lemma PlayedStep(u: Setup, p: Pass, still: nat, rounds: seq<Round>, i: nat)
    requires |p.status| == u.Total() && still > 0 && i < |rounds| && !rounds[i].stopBefore
    ensures var q := AllRead(u, p, rounds[i].messages);
            Played(u, p, still, rounds[i..])
            == if Cancels(q, rounds[i]) then (q, true) else Played(u, q, rounds[i].still, rounds[i + 1..])
  {
    assert rounds[i..][1..] == rounds[i + 1..];
  }

  lemma FilledIsGoing(u: Setup, p: Pass, stops: nat -> bool)
    requires Filling(u, p, stops) && Saturated(u, p)
    ensures Going(u, p) && !p.MustCancel() && p.completed == 0
  {
  }

  lemma RoundIsRead(reports: seq<Report>, u: Setup, p: Pass, q: Pass)
    requires Upto(reports, u, p) && Going(u, p) && Beyond(u, p, q)
    ensures Upto(reports, u, q) && Going(u, q)
  {
    UptoGrows(reports, u, p, q);
  }

  /** Running transfers are cancelled if enough was found, or if a stop was requested, and only then. */
  lemma {:induction false} CancelsExactly(u: Setup, p: Pass, still: nat, rounds: seq<Round>)
    requires |p.status| == u.Total() && !p.MustCancel()
    ensures var (q, cancelled) := Played(u, p, still, rounds);
            && (q.MustCancel() ==> cancelled)
            && (cancelled ==> q.MustCancel() || exists i :: 0 <= i < |rounds| && rounds[i].stopAfter)
    decreases |rounds|
  {
    if still > 0 && rounds != [] && !rounds[0].stopBefore {
      var q := AllRead(u, p, rounds[0].messages);
      if !Cancels(q, rounds[0]) {
        CancelsExactly(u, q, rounds[0].still, rounds[1..]);
        assert forall i :: 0 <= i < |rounds| - 1 ==> rounds[1..][i] == rounds[i + 1];
      }
    }
  }

  /** The main loop. */
  method PlayRounds(u: Setup, start: Pass, first: seq<Report>, firstStill: nat, rounds: seq<Round>)
    returns (p: Pass, reports: seq<Report>, cancelled: bool)
    requires Going(u, start) && Upto(first, u, start)
    ensures (p, cancelled) == Played(u, start, firstStill, rounds) && Going(u, p) && Upto(reports, u, p)
  {
    p, reports, cancelled := start, first, false;
    var still, i := firstStill, 0;
    assert rounds[0..] == rounds;
    while still > 0 && i < |rounds| && !rounds[i].stopBefore
      invariant 0 <= i <= |rounds| && Going(u, p) && Upto(reports, u, p)
      invariant Played(u, start, firstStill, rounds) == Played(u, p, still, rounds[i..])
      decreases |rounds| - i
    {
      var round := rounds[i];
      PlayedStep(u, p, still, rounds, i);
      i := i + 1;
      still := round.still;
      var q := ReadMessages(u, p, round.messages);
      RoundIsRead(reports, u, p, q);
      p := q;
      if (p.stopAdding && p.inflight > 0) || round.stopAfter {
        cancelled := true;
        break;
      }
      BoundsOf(u, p);
      OneMoreReport(reports, u, p, Emitted(u, p, false));
      reports := reports + [Emitted(u, p, false)];
    }
  }

  /** test_proxies_multi. `last` is the pass as it was before the final cancellation. */
  method TestProxiesMulti(u: Setup, creates: nat -> bool, stops: nat -> bool, firstStill: nat, rounds: seq<Round>)
    returns (tested: seq<Row>, reports: seq<Report>, cancelled: bool, last: Pass)
    ensures (last, cancelled) == Played(u, Filled(u, Begin(u), creates, stops), firstStill, rounds)
    ensures Going(u, last) && tested == last.tested
    ensures last.MustCancel() ==> cancelled
    ensures cancelled ==> last.MustCancel() || exists i :: 0 <= i < |rounds| && rounds[i].stopAfter
    ensures ReportsOk(reports, u.Total()) && reports != []
    ensures var r := reports[|reports| - 1];
            && r.final && r.passed == |tested| && r.curlOk == last.curlOk
            && r.done == if cancelled then u.Total() else last.completed
  {
    var p := FillUp(u, creates, stops);
    FilledIsGoing(u, p, stops);
    CancelsExactly(u, p, firstStill, rounds);
    BoundsOf(u, p);
    OneMoreReport([], u, p, Emitted(u, p, false));
    last, reports, cancelled := PlayRounds(u, p, [] + [Emitted(u, p, false)], firstStill, rounds);
    tested := last.tested;
    BoundsOf(u, last);
    var final := Emitted(u, if cancelled then last.(completed := u.Total()) else last, true);
    OneMoreReport(reports, u, last, final);
    reports := reports + [final];
  }

  lemma BoundsOf(u: Setup, p: Pass)
    requires PassOk(u, p)
    ensures |p.tested| <= p.curlOk <= p.completed <= u.Total() && p.completed + p.inflight <= p.next && p.inflight >= 0
    ensures p.inflight <= if u.maxInflight > 0 then u.maxInflight else 96
  {
    CountBounds(RanOk, p.log);
  }

  // ---- the scored list ----

  /** Where each earned row comes from: row k is earned by report from[k], in order. */
  lemma {:induction false} EarnedFrom(u: Setup, log: seq<(nat, Transfer)>) returns (from: seq<nat>)
    requires forall i :: 0 <= i < |log| ==> log[i].0 < u.Total()
    ensures |from| == |Earned(u, log)|
    ensures forall k :: 0 <= k < |from| ==>
              from[k] < |log| && Earned(u, log)[k] == ScoredRow(u.candidates[log[from[k]].0], log[from[k]].1)
              && Good(log[from[k]].1) && Speed(log[from[k]].1) > MIN_SPEED
    ensures forall j, k :: 0 <= j < k < |from| ==> from[j] < from[k]
    ensures forall i :: 0 <= i < |log| && Good(log[i].1) && Speed(log[i].1) > MIN_SPEED ==> i in from
  {
    if log == [] {
      from := [];
    } else {
      var n := |log| - 1;
      from := EarnedFrom(u, log[..n]);
      var t := log[n].1;
      if Good(t) && Speed(t) > MIN_SPEED {
        from := from + [n];
      }
    }
  }

  /** The time that a transfer is taken to have needed. */
  function Elapsed(t: Transfer): real { if t.secs < 0.01 then 0.01 else t.secs }

  /** A transfer that earns its proxy a row: it succeeded with at least 1024 bytes and an unsuspicious
      status, at more than a fiftieth of a mebibyte a second. */
  predicate Passes(t: Transfer) {
    && t.curlOk && t.bytes >= 1024 && t.http in {0, 200, 206}
    && 50.0 * t.bytes as real > 1048576.0 * Elapsed(t)
  }

  lemma PassesIs(t: Transfer)
    ensures Passes(t) <==> Good(t) && Speed(t) > MIN_SPEED
    ensures Speed(t) * Elapsed(t) * 1048576.0 == t.bytes as real
  {
    var mib, secs := t.bytes as real / 1048576.0, Elapsed(t);
    assert Speed(t) == mib / secs;
    assert Speed(t) * secs == mib;
    assert Speed(t) > MIN_SPEED <==> Speed(t) * secs > MIN_SPEED * secs;
  }

  lemma EarnsItsRow(u: Setup, report: (nat, Transfer))
    requires report.0 < u.Total()
    ensures Earns(u, report, ScoredRow(u.candidates[report.0], report.1))
    ensures Passes(report.1) <==> Good(report.1) && Speed(report.1) > MIN_SPEED
  {
    PassesIs(report.1);
  }

  predicate EarnedBy(u: Setup, log: seq<(nat, Transfer)>, i: nat, r: Row) {
    i < |log| && Passes(log[i].1) && Earns(u, log[i], r)
  }

  /** The scored rows are those of the transfers that pass, with the measured speed, idle and verified. */
  lemma RowsAreEarned(u: Setup, p: Pass)
    requires PassOk(u, p)
    ensures forall r :: r in p.tested ==> exists i: nat :: EarnedBy(u, p.log, i, r)
    ensures forall i :: 0 <= i < |p.log| && Passes(p.log[i].1) ==> exists r :: r in p.tested && EarnedBy(u, p.log, i, r)
  {
    var from := EarnedFrom(u, p.log);
    forall r | r in p.tested
      ensures exists i: nat :: EarnedBy(u, p.log, i, r)
    {
      var k :| 0 <= k < |p.tested| && p.tested[k] == r;
      EarnsItsRow(u, p.log[from[k]]);
      assert EarnedBy(u, p.log, from[k], r);
    }
    forall i | 0 <= i < |p.log| && Passes(p.log[i].1)
      ensures exists r :: r in p.tested && EarnedBy(u, p.log, i, r)
    {
      EarnsItsRow(u, p.log[i]);
      var k :| 0 <= k < |from| && from[k] == i;
      assert EarnedBy(u, p.log, i, p.tested[k]);
    }
  }

  predicate Earns(u: Setup, report: (nat, Transfer), r: Row) {
    && report.0 < u.Total() && r.address == u.candidates[report.0]
    && r.speed * Elapsed(report.1) * 1048576.0 == report.1.bytes as real
    && r.fails == 0 && r.alive && !r.busy && r.targetOk
  }

  /** If no candidate is listed twice, the scored list is one that install_tested may be given. */
  lemma ScoredListIsGood(u: Setup, p: Pass)
    requires PassOk(u, p)
    requires forall i, j :: 0 <= i < j < u.Total() ==> u.candidates[i] != u.candidates[j]
    ensures TestedOk(p.tested)
    ensures forall k :: 0 <= k < |p.tested| ==> p.tested[k].address in u.candidates && p.tested[k].speed > MIN_SPEED
  {
    var from := EarnedFrom(u, p.log);
    forall j, k | 0 <= j < k < |p.tested|
      ensures p.tested[j].address != p.tested[k].address
    {
      assert p.log[from[j]].0 != p.log[from[k]].0;
    }
  }
}
