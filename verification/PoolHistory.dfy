/** What becomes of one proxy over a history of leases and releases (src/proxy_engine.cpp:107-201). */
module PoolHistory {
  import opened Wrappers
  import opened ProxyPool
  import opened PoolProperties

  datatype Call =
    | Lease(skip: seq<Address>, got: Option<Row>)
    | Give(url: Address, ok: bool, mbps: real)

  ghost predicate Calls(rows: seq<Row>, filter: bool, call: Call, after: seq<Row>) {
    match call
    case Lease(skip, got) => Acquired(rows, filter, skip, after, got)
    case Give(url, ok, mbps) => Released(rows, url, ok, mbps, after)
  }

  /** Leases and releases of any proxies, with no target test and no installation in between. */
  ghost predicate IsHistory(pools: seq<seq<Row>>, filter: bool, calls: seq<Call>) {
    && |pools| == |calls| + 1 && PoolOk(pools[0])
    && forall i :: 0 <= i < |calls| ==> Calls(pools[i], filter, calls[i], pools[i + 1])
  }

  /** How often in a row a release of the proxy has failed, after n calls; before its first release, as
      often as the row says. */
  function Streak(calls: seq<Call>, n: nat, url: Address, before: int): int
    requires n <= |calls|
  {
    if n == 0 then before
    else
      var last := calls[n - 1];
      if last.Give? && last.url == url then if last.ok then 0 else Streak(calls, n - 1, url, before) + 1
      else Streak(calls, n - 1, url, before)
  }

  /** The proxy is in the pool, and has failed that often in a row. */
  predicate Has(rows: seq<Row>, url: Address, fails: int) {
    exists i :: 0 <= i < |rows| && rows[i].address == url && rows[i].fails == fails
  }

  lemma LeaseKeepsFails(rows: seq<Row>, filter: bool, skip: seq<Address>, after: seq<Row>, got: Option<Row>)
    requires PoolOk(rows) && Acquired(rows, filter, skip, after, got)
    ensures PoolOk(after) && Addresses(after) == Addresses(rows)
    ensures forall url, fails :: Has(after, url, fails) <==> Has(rows, url, fails)
  {
    if got.Some? { AcquireKeeps(rows, filter, skip, after, got.value); }
    AcquireTakesTheFastest(rows, filter, skip, after, got);
    assert |after| == |rows|;
    assert forall i :: 0 <= i < |rows| ==> after[i].address == rows[i].address && after[i].fails == rows[i].fails;
    forall url, fails
      ensures Has(after, url, fails) <==> Has(rows, url, fails)
    {
      if Has(rows, url, fails) {
        var i :| 0 <= i < |rows| && rows[i].address == url && rows[i].fails == fails;
        assert after[i].address == url && after[i].fails == fails;
      }
      if Has(after, url, fails) {
        var i :| 0 <= i < |after| && after[i].address == url && after[i].fails == fails;
        assert rows[i].address == url && rows[i].fails == fails;
      }
    }
    forall a
      ensures a in Addresses(after) <==> a in Addresses(rows)
    {
      if a in Addresses(rows) {
        var i :| 0 <= i < |rows| && rows[i].address == a;
        assert after[i].address == a;
      }
    }
  }

  lemma HasOne(rows: seq<Row>, url: Address, fails: int)
    requires PoolOk(rows) && Has(rows, url, fails)
    ensures url in Addresses(rows) && fails < 4
    ensures forall r :: r in rows && r.address == url ==> r.fails == fails
  {
  }

  lemma GiveMovesFails(rows: seq<Row>, call: Call, after: seq<Row>, url: Address, fails: int)
    requires PoolOk(rows) && call.Give? && Calls(rows, false, call, after) && Has(rows, url, fails)
    ensures PoolOk(after)
    ensures var next := if call.url != url then fails else if call.ok then 0 else fails + 1;
            if next < 4 then Has(after, url, next) else url !in Addresses(after)
  {
    ReleaseKeeps(rows, call.url, call.ok, call.mbps, after);
    var i :| 0 <= i < |rows| && rows[i].address == url && rows[i].fails == fails;
    assert rows[i] in rows;
    if call.url != url {
      assert rows[i] in after;
    } else if call.ok || fails < 3 {
      assert url in Addresses(after);
      var j :| 0 <= j < |after| && after[j].address == url;
      assert after[j] in after;
    }
  }

  lemma GiveAddsNothing(rows: seq<Row>, call: Call, after: seq<Row>, url: Address)
    requires PoolOk(rows) && call.Give? && Calls(rows, false, call, after) && url !in Addresses(rows)
    ensures PoolOk(after) && url !in Addresses(after)
  {
    ReleaseKeeps(rows, call.url, call.ok, call.mbps, after);
    AddressesOf(rows);
    AddressesOf(after);
  }

  /** The proxy has not yet failed four times in a row. */
  predicate Survives(calls: seq<Call>, n: nat, url: Address, before: int)
    requires n <= |calls|
  {
    forall m :: 0 <= m <= n ==> Streak(calls, m, url, before) < 4
  }

  /** What one more call does to a proxy that is in the pool, or is not. */
  lemma OneMoreCall(rows: seq<Row>, filter: bool, calls: seq<Call>, n: nat, after: seq<Row>, url: Address, before: int)
    requires PoolOk(rows) && 0 < n <= |calls| && Calls(rows, filter, calls[n - 1], after)
    requires url in Addresses(rows) ==> Has(rows, url, Streak(calls, n - 1, url, before))
    ensures PoolOk(after)
    ensures url in Addresses(after) <==> url in Addresses(rows) && Streak(calls, n, url, before) < 4
    ensures url in Addresses(after) ==> Has(after, url, Streak(calls, n, url, before))
  {
    var call := calls[n - 1];
    if call.Lease? {
      LeaseKeepsFails(rows, filter, call.skip, after, call.got);
      if url in Addresses(rows) { HasOne(rows, url, Streak(calls, n - 1, url, before)); }
    } else if url in Addresses(rows) {
      GiveMovesFails(rows, call, after, url, Streak(calls, n - 1, url, before));
      if Streak(calls, n, url, before) < 4 { HasOne(after, url, Streak(calls, n, url, before)); }
      HasOne(rows, url, Streak(calls, n - 1, url, before));
    } else {
      GiveAddsNothing(rows, call, after, url);
    }
  }

  /** A proxy is erased exactly when it has failed four times in a row, counted from its last success,
      whatever is leased and released in between; and its row says how often that is so far. */
  lemma {:induction false} FourInARow(pools: seq<seq<Row>>, filter: bool, calls: seq<Call>, n: nat, url: Address, before: int)
    requires IsHistory(pools, filter, calls) && n < |pools| && Has(pools[0], url, before)
    ensures PoolOk(pools[n])
    ensures url in Addresses(pools[n]) <==> Survives(calls, n, url, before)
    ensures url in Addresses(pools[n]) ==> Has(pools[n], url, Streak(calls, n, url, before))
  {
    if n == 0 {
      HasOne(pools[0], url, before);
    } else {
      FourInARow(pools, filter, calls, n - 1, url, before);
      OneMoreCall(pools[n - 1], filter, calls, n, pools[n], url, before);
    }
  }
}
