/** What the operations of the pool keep and promise. */
module PoolProperties {
  import opened Wrappers
  import opened Counting
  import opened ProxyPool

  // ---- rearranging rows ----

  /** Distinctness does not depend on the order. */
  ghost predicate DistinctBag(bag: multiset<Row>) {
    && (forall r :: bag[r] <= 1)
    && (forall r, q :: r in bag && q in bag && r.address == q.address ==> r == q)
  }

  lemma {:induction false} DistinctAsBag(rows: seq<Row>)
    ensures Distinct(rows) <==> DistinctBag(multiset(rows))
  {
    if rows != [] {
      var n := |rows| - 1;
      assert rows == rows[..n] + [rows[n]];
      DistinctAsBag(rows[..n]);
      if Distinct(rows) {
        assert forall r :: r in multiset(rows[..n]) ==> r.address != rows[n].address;
      }
      if DistinctBag(multiset(rows)) {
        assert forall r :: multiset(rows[..n])[r] <= multiset(rows)[r];
        forall i | 0 <= i < n
          ensures rows[i].address != rows[n].address
        {
          assert rows[..n][i] in multiset(rows[..n]);
          assert multiset(rows)[rows[n]] == multiset(rows[..n])[rows[n]] + 1;
        }
      }
    }
  }

  lemma BusyAsBag(rows: seq<Row>)
    ensures forall a :: a in BusyAddresses(rows) <==> exists r :: r in multiset(rows) && r.busy && r.address == a
  {
    forall a
      ensures a in BusyAddresses(rows) <==> exists r :: r in multiset(rows) && r.busy && r.address == a
    {
      if a in BusyAddresses(rows) {
        var i :| 0 <= i < |rows| && rows[i].busy && rows[i].address == a;
        assert rows[i] in multiset(rows);
      }
      if r :| r in multiset(rows) && r.busy && r.address == a {
        assert r in rows;
      }
    }
  }

  /** A sorted arrangement of good rows is a good pool with the same leases. */
  lemma SortKeepsPool(before: seq<Row>, after: seq<Row>)
    requires SortedFrom(before, after) && Distinct(before)
    requires forall i :: 0 <= i < |before| ==> RowOk(before[i])
    ensures PoolOk(after) && BusyAddresses(after) == BusyAddresses(before)
    ensures forall r :: r in after <==> r in before
    ensures |after| == |before|
  {
    DistinctAsBag(before);
    DistinctAsBag(after);
    BusyAsBag(before);
    BusyAsBag(after);
    assert forall r :: r in after <==> r in multiset(after);
    assert forall r :: r in before <==> r in multiset(before);
    assert |multiset(after)| == |multiset(before)|;
    forall i | 0 <= i < |after|
      ensures RowOk(after[i])
    {
      assert after[i] in before;
    }
  }

  lemma CountInsert(p: Row -> bool, front: seq<Row>, r: Row, back: seq<Row>)
    ensures Count(p, front + [r] + back) == Count(p, front + back) + if p(r) then 1 else 0
  {
    CountJoin(p, front, back);
    CountJoin(p, front, [r]);
    CountJoin(p, front + [r], back);
  }

  lemma CutAt(xs: seq<Row>, k: nat)
    requires k < |xs|
    ensures xs == xs[..k] + [xs[k]] + xs[k + 1..]
    ensures multiset(xs[..k] + xs[k + 1..]) == multiset(xs) - multiset{xs[k]}
  {
    assert xs == xs[..k] + [xs[k]] + xs[k + 1..];
  }

  lemma {:induction false} CountOfBag(p: Row -> bool, before: seq<Row>, after: seq<Row>)
    requires multiset(before) == multiset(after)
    ensures Count(p, before) == Count(p, after)
    decreases |before|
  {
    if before == [] {
      assert |multiset(after)| == 0;
    } else {
      var r := before[0];
      assert r in multiset(after);
      var k :| 0 <= k < |after| && after[k] == r;
      CutAt(before, 0);
      CutAt(after, k);
      CountInsert(p, before[..0], r, before[1..]);
      CountInsert(p, after[..k], r, after[k + 1..]);
      CountOfBag(p, before[..0] + before[1..], after[..k] + after[k + 1..]);
    }
  }

  lemma {:induction false} CountJoin(p: Row -> bool, xs: seq<Row>, ys: seq<Row>)
    ensures Count(p, xs + ys) == Count(p, xs) + Count(p, ys)
  {
    if ys == [] {
      assert xs + ys == xs;
    } else {
      var n := |ys| - 1;
      assert (xs + ys)[..|xs| + n] == xs + ys[..n];
      CountJoin(p, xs, ys[..n]);
    }
  }

  // ---- acquire ----

  /** acquire leases a row that is alive and idle, has fewer than four failures and, once a target is
      set, has reached it: the fastest such row outside the skip list, or, when there is none, the
      fastest such row. It returns nothing exactly if there is no such row. */
  lemma AcquireTakesTheFastest(rows: seq<Row>, filter: bool, skip: seq<Address>, after: seq<Row>, got: Option<Row>)
    requires Sorted(rows) && Acquired(rows, filter, skip, after, got)
    ensures got.None? <==>
              forall i :: 0 <= i < |rows| ==>
                !rows[i].alive || rows[i].busy || rows[i].fails >= 4 || (filter && !rows[i].targetOk)
    ensures got.None? ==> after == rows
    ensures got.Some? ==>
              exists k :: 0 <= k < |rows| && TakesTheFastest(rows, filter, skip, k)
                          && got.value == rows[k].(busy := true) && after == rows[k := got.value]
  {
    if got.None? {
      forall i | 0 <= i < |rows|
        ensures !rows[i].alive || rows[i].busy || rows[i].fails >= 4 || (filter && !rows[i].targetOk)
      {
        assert !Candidate(rows[i], filter, skip, false);
      }
    } else {
      var k: nat :| AcquiredAt(rows, filter, skip, after, got.value, k);
      FirstIsFastest(rows, filter, skip, k);
    }
  }

  /** Row k may be leased, and none that may be leased is to be preferred to it. */
  predicate TakesTheFastest(rows: seq<Row>, filter: bool, skip: seq<Address>, k: nat)
    requires k < |rows|
  {
    && rows[k].alive && !rows[k].busy && rows[k].fails < 4 && (filter ==> rows[k].targetOk)
    && forall i :: 0 <= i < |rows| && rows[i].alive && !rows[i].busy && rows[i].fails < 4 && (filter ==> rows[i].targetOk) ==>
         && (rows[i].address !in skip ==> rows[k].address !in skip && rows[k].speed >= rows[i].speed)
         && (rows[k].address in skip ==> rows[k].speed >= rows[i].speed)
  }

  lemma FirstIsFastest(rows: seq<Row>, filter: bool, skip: seq<Address>, k: nat)
    requires Sorted(rows) && k < |rows|
    requires if NoCandidate(rows, filter, skip, true) then FirstCandidate(rows, filter, skip, false, k)
             else FirstCandidate(rows, filter, skip, true, k)
    ensures TakesTheFastest(rows, filter, skip, k)
  {
    forall i | 0 <= i < |rows| && rows[i].alive && !rows[i].busy && rows[i].fails < 4 && (filter ==> rows[i].targetOk)
      ensures rows[i].address !in skip ==> rows[k].address !in skip && rows[k].speed >= rows[i].speed
      ensures rows[k].address in skip ==> rows[k].speed >= rows[i].speed
    {
      assert Candidate(rows[i], filter, skip, false);
      if rows[i].address !in skip { assert Candidate(rows[i], filter, skip, true); }
    }
  }

  lemma AcquireKeeps(rows: seq<Row>, filter: bool, skip: seq<Address>, after: seq<Row>, r: Row)
    requires PoolOk(rows) && Acquired(rows, filter, skip, after, Some(r))
    ensures PoolOk(after) && r.address !in BusyAddresses(rows)
    ensures BusyAddresses(after) == BusyAddresses(rows) + {r.address}
    ensures filter ==> r.targetOk
    ensures exists k :: 0 <= k < |rows| && rows[k] == r.(busy := false)
    ensures forall i :: 0 <= i < |after| ==>
              after[i].address == rows[i].address && after[i].targetOk == rows[i].targetOk
  {
    var k: nat :| AcquiredAt(rows, filter, skip, after, r, k);
    assert rows[k] == r.(busy := false);
    assert after[k].busy && after[k].address == r.address;
    forall a | a in BusyAddresses(rows)
      ensures a in BusyAddresses(after)
    {
      var i :| 0 <= i < |rows| && rows[i].busy && rows[i].address == a;
      assert after[i] == rows[i];
    }
  }

  // ---- release ----

  /** Where the row with the address is, or the length if there is none. */
  lemma FindRow(rows: seq<Row>, url: Address) returns (i: nat)
    ensures i <= |rows| && (forall j :: 0 <= j < i ==> rows[j].address != url)
    ensures i < |rows| ==> rows[i].address == url
  {
    i := 0;
    while i < |rows| && rows[i].address != url
      invariant i <= |rows| && forall j :: 0 <= j < i ==> rows[j].address != url
    {
      i := i + 1;
    }
  }

  lemma UpdateAt(rows: seq<Row>, i: nat, r: Row)
    requires Distinct(rows) && i < |rows| && r.address == rows[i].address
    ensures Distinct(rows[i := r])
    ensures forall q: Row :: q.address != r.address ==> (q in rows[i := r] <==> q in rows)
    ensures r in rows[i := r] && forall q :: q in rows[i := r] && q.address == r.address ==> q == r
  {
    var t := rows[i := r];
    assert t[i] == r;
    forall q: Row | q.address != r.address && q in rows
      ensures q in t
    {
      var j :| 0 <= j < |rows| && rows[j] == q;
      assert t[j] == q;
    }
  }

  lemma EraseAt(rows: seq<Row>, i: nat)
    requires Distinct(rows) && i < |rows|
    ensures var t := rows[..i] + rows[i + 1..];
            && Distinct(t)
            && (forall q: Row :: q.address != rows[i].address ==> (q in t <==> q in rows))
            && (forall q :: q in t ==> q.address != rows[i].address)
  {
    assert rows == rows[..i] + [rows[i]] + rows[i + 1..];
    assert forall q :: q in rows[..i] || q in rows[i + 1..] ==> q.address != rows[i].address;
  }

  /** Before the rows are sorted again: all other rows are as they were, the released row is
      idle, and it is gone exactly after its fourth failure in a row. */
  lemma AfterReleaseKeeps(rows: seq<Row>, url: Address, ok: bool, mbps: real, i: nat)
    requires Distinct(rows) && i < |rows| && rows[i].address == url && RowOk(rows[i])
    ensures var t := AfterRelease(rows, url, ok, mbps);
            && Distinct(t)
            && (forall q: Row :: q.address != url ==> (q in t <==> q in rows))
            && (forall q :: q in t && q.address == url ==> q == ReleasedRow(rows[i], ok, mbps))
            && (ReleasedRow(rows[i], ok, mbps) in t <==> ok || rows[i].fails + 1 < MAX_FAILS)
  {
    AfterReleaseAt(rows, url, ok, mbps, i);
    if ReleasedRow(rows[i], ok, mbps).alive {
      UpdateAt(rows, i, ReleasedRow(rows[i], ok, mbps));
    } else {
      EraseAt(rows, i);
    }
  }

  /** release gives back the lease of its address and touches no other row. A success clears the
      failures and, if a speed was measured, counts it for three tenths; a failure is one more and
      costs three quarters of the speed. The row is erased exactly by its fourth failure. */
  lemma ReleaseKeeps(rows: seq<Row>, url: Address, ok: bool, mbps: real, after: seq<Row>)
    requires PoolOk(rows) && Released(rows, url, ok, mbps, after)
    ensures PoolOk(after) && BusyAddresses(after) == BusyAddresses(rows) - {url}
    ensures forall r: Row :: r.address != url ==> (r in after <==> r in rows)
    ensures url in Addresses(after) <==> exists i :: 0 <= i < |rows| && rows[i].address == url && (ok || rows[i].fails < 3)
    ensures forall r, q :: r in rows && q in after && r.address == q.address == url ==>
              && !q.busy && q.alive && q.targetOk == r.targetOk
              && (ok ==> q.fails == 0 && (mbps > 0.0 ==> 10.0 * q.speed == 7.0 * r.speed + 3.0 * mbps)
                         && (mbps <= 0.0 ==> q.speed == r.speed))
              && (!ok ==> q.fails == r.fails + 1 && 4.0 * q.speed == r.speed)
  {
    var t := AfterRelease(rows, url, ok, mbps);
    var i := FindRow(rows, url);
    if i < |rows| {
      AfterReleaseKeeps(rows, url, ok, mbps, i);
      ReleasedRowsOk(rows, t, url, ok, mbps, i);
      BusyAfterRelease(rows, t, url);
    } else {
      AfterReleaseAt(rows, url, ok, mbps, i);
      BusyAfterRelease(rows, t, url);
    }
    SortKeepsPool(t, after);
    ReleasedIs(rows, url, ok, mbps, after, i);
  }

  /** What the rows of the address are after a release. */
  lemma ReleasedIs(rows: seq<Row>, url: Address, ok: bool, mbps: real, after: seq<Row>, i: nat)
    requires Distinct(rows) && i <= |rows| && (forall j :: 0 <= j < i ==> rows[j].address != url)
    requires i < |rows| ==> rows[i].address == url && RowOk(rows[i])
    requires forall r :: r in after <==> r in AfterRelease(rows, url, ok, mbps)
    ensures url in Addresses(after) <==> i < |rows| && (ok || rows[i].fails + 1 < MAX_FAILS)
    ensures forall r, q :: r in rows && q in after && r.address == q.address == url ==>
              i < |rows| && r == rows[i] && q == ReleasedRow(r, ok, mbps)
  {
    AddressesOf(after);
    if i < |rows| {
      AfterReleaseKeeps(rows, url, ok, mbps, i);
    } else {
      AfterReleaseAt(rows, url, ok, mbps, i);
    }
  }

  lemma AddressesOf(rows: seq<Row>)
    ensures forall a :: a in Addresses(rows) <==> exists r :: r in rows && r.address == a
  {
    forall r | r in rows
      ensures r.address in Addresses(rows)
    {
      var i :| 0 <= i < |rows| && rows[i] == r;
    }
  }

  /** A failure puts the row behind every row that was at least as fast. */
  lemma FailedFallsBehind(rows: seq<Row>, url: Address, mbps: real, after: seq<Row>, i: nat, j: nat, k: nat)
    requires PoolOk(rows) && Released(rows, url, false, mbps, after) && i < |rows| && rows[i].address == url
    requires j < |after| && after[j].address == url
    requires k < |after| && after[k].address != url && after[k].speed >= rows[i].speed
    ensures k < j
  {
    ReleaseKeeps(rows, url, false, mbps, after);
    assert rows[i] in rows && after[j] in after;
  }

  lemma ReleasedRowsOk(rows: seq<Row>, t: seq<Row>, url: Address, ok: bool, mbps: real, i: nat)
    requires (forall j :: 0 <= j < |rows| ==> RowOk(rows[j])) && i < |rows|
    requires forall q: Row :: q.address != url ==> (q in t <==> q in rows)
    requires forall q :: q in t && q.address == url ==> q == ReleasedRow(rows[i], ok, mbps)
    requires ReleasedRow(rows[i], ok, mbps) in t <==> ok || rows[i].fails + 1 < MAX_FAILS
    ensures forall j :: 0 <= j < |t| ==> RowOk(t[j])
    ensures forall q :: q in t && q.address == url ==> !q.busy
  {
    forall j | 0 <= j < |t|
      ensures RowOk(t[j])
    {
      if t[j].address != url { assert t[j] in rows; }
    }
  }

  lemma BusyAfterRelease(rows: seq<Row>, t: seq<Row>, url: Address)
    requires forall q: Row :: q.address != url ==> (q in t <==> q in rows)
    requires forall q :: q in t && q.address == url ==> !q.busy
    ensures BusyAddresses(t) == BusyAddresses(rows) - {url}
  {
    forall a
      ensures a in BusyAddresses(t) <==> a in BusyAddresses(rows) && a != url
    {
      if a in BusyAddresses(rows) && a != url {
        var j :| 0 <= j < |rows| && rows[j].busy && rows[j].address == a;
        assert rows[j] in t;
      }
      if a in BusyAddresses(t) {
        var j :| 0 <= j < |t| && t[j].busy && t[j].address == a;
        assert t[j] in rows;
      }
    }
  }

  // ---- install_tested ----

  /** A scored list as the tests deliver it: good idle rows without failures, each address once. */
  predicate TestedOk(tested: seq<Row>) {
    && Distinct(tested)
    && forall i :: 0 <= i < |tested| ==> RowOk(tested[i]) && !tested[i].busy && tested[i].fails == 0 && tested[i].targetOk
  }

  lemma {:induction false} OldBusyIs(rows: seq<Row>)
    requires Distinct(rows)
    ensures OldBusy(rows).Keys == BusyAddresses(rows)
    ensures forall i :: 0 <= i < |rows| && rows[i].busy ==> OldBusy(rows)[rows[i].address] == rows[i]
  {
    if rows != [] {
      var n := |rows| - 1;
      OldBusyIs(rows[..n]);
      assert forall i :: 0 <= i < n ==> rows[..n][i] == rows[i];
      assert BusyAddresses(rows) == BusyAddresses(rows[..n]) + if rows[n].busy then {rows[n].address} else {};
      if rows[n].busy {
        assert rows[n].address !in BusyAddresses(rows[..n]);
      }
    }
  }

  /** With each address once, every tested row finds the lease it replaces, if there is one. */
  lemma {:induction false} MarkAllIs(tested: seq<Row>, old_: map<Address, Row>)
    requires Distinct(tested)
    ensures forall i :: 0 <= i < |tested| ==> MarkAll(tested, old_).0[i] == Marked(tested[i], old_)
  {
    if tested != [] {
      var n := |tested| - 1;
      MarkAllIs(tested[..n], old_);
      assert forall i :: 0 <= i < n ==> tested[..n][i] == tested[i];
      assert forall i :: 0 <= i < n ==> tested[i].address != tested[n].address;
    }
  }

  /** It has only good rows, each address once, and its leases are old ones with their failures. */
  lemma MergedRows(rows: seq<Row>, tested: seq<Row>, left: seq<Row>)
    requires PoolOk(rows) && TestedOk(tested) && Lists(left, LeftOver(rows, tested))
    ensures var m := Merged(rows, tested, left);
            && |m| == |tested| + |left| && Distinct(m)
            && (forall i :: 0 <= i < |m| ==> RowOk(m[i]))
            && (forall i :: 0 <= i < |tested| ==> m[i].address == tested[i].address && m[i].speed == tested[i].speed)
            && (forall i :: 0 <= i < |m| ==> (m[i].busy <==> m[i].address in OldBusy(rows)))
            && (forall i :: 0 <= i < |m| && m[i].busy ==> m[i].fails == OldBusy(rows)[m[i].address].fails)
  {
    var old_ := OldBusy(rows);
    var marked := MarkAll(tested, old_).0;
    MarkAllIs(tested, old_);
    LeftRows(rows, tested, left);
    forall i | 0 <= i < |marked|
      ensures RowOk(marked[i])
    {
      if tested[i].address in old_ { OldRowOk(rows, tested[i].address); }
    }
  }

  lemma MergedBusy(rows: seq<Row>, tested: seq<Row>, left: seq<Row>)
    requires PoolOk(rows) && TestedOk(tested) && Lists(left, LeftOver(rows, tested))
    ensures BusyAddresses(Merged(rows, tested, left)) == BusyAddresses(rows)
  {
    var m := Merged(rows, tested, left);
    MergedRows(rows, tested, left);
    OldBusyIs(rows);
    forall a | a in BusyAddresses(rows)
      ensures a in BusyAddresses(m)
    {
      if a in LeftOver(rows, tested) {
        var j :| 0 <= j < |left| && left[j] == LeftOver(rows, tested)[a];
        assert m[|tested| + j] == left[j];
      } else {
        var i :| 0 <= i < |tested| && tested[i].address == a;
        assert m[i].address == a && m[i].busy;
      }
    }
  }

  lemma OldRowOk(rows: seq<Row>, a: Address)
    requires PoolOk(rows) && a in OldBusy(rows)
    ensures RowOk(OldBusy(rows)[a])
  {
    OldBusyIs(rows);
  }

  /** A pool row whose address is leased is the leased row. */
  lemma OldRowIs(rows: seq<Row>, k: nat)
    requires Distinct(rows) && k < |rows| && rows[k].address in OldBusy(rows)
    ensures rows[k].busy && OldBusy(rows)[rows[k].address] == rows[k]
  {
    OldBusyIs(rows);
    var i :| 0 <= i < |rows| && rows[i].busy && rows[i].address == rows[k].address;
    assert i == k;
  }

  lemma LeftRows(rows: seq<Row>, tested: seq<Row>, left: seq<Row>)
    requires PoolOk(rows) && Lists(left, LeftOver(rows, tested))
    ensures forall i :: 0 <= i < |left| ==>
              && RowOk(left[i]) && left[i].busy && left[i].address in OldBusy(rows)
              && left[i] == OldBusy(rows)[left[i].address]
              && forall j :: 0 <= j < |tested| ==> tested[j].address != left[i].address
  {
    forall i | 0 <= i < |left|
      ensures left[i].address in OldBusy(rows) && left[i] == OldBusy(rows)[left[i].address] && RowOk(left[i])
    {
      OldRowOk(rows, left[i].address);
    }
  }

  // ---- the selection ----

  lemma {:induction false} FilterMembers(rows: seq<Row>, busy: bool, r: Row)
    ensures r in Filter(rows, busy) <==> r in rows && r.busy == busy
  {
    if rows != [] {
      var n := |rows| - 1;
      assert rows == rows[..n] + [rows[n]];
      FilterMembers(rows[..n], busy, r);
    }
  }

  /** The k-th row of a filtered list stands at some place of the list, and in the same order. */
  lemma {:induction false} FilterOrder(rows: seq<Row>, busy: bool, j: nat, k: nat) returns (x: nat, y: nat)
    requires j < k < |Filter(rows, busy)|
    ensures x < y < |rows| && Filter(rows, busy)[j] == rows[x] && Filter(rows, busy)[k] == rows[y]
  {
    var n := |rows| - 1;
    var front := Filter(rows[..n], busy);
    if k < |front| {
      x, y := FilterOrder(rows[..n], busy, j, k);
    } else {
      FilterMembers(rows[..n], busy, front[j]);
      x :| 0 <= x < n && rows[..n][x] == front[j];
      y := n;
    }
  }

  lemma FilterRows(rows: seq<Row>, busy: bool)
    ensures forall r :: r in Filter(rows, busy) <==> r in rows && r.busy == busy
    ensures Distinct(rows) ==> Distinct(Filter(rows, busy))
    ensures Sorted(rows) ==> Sorted(Filter(rows, busy))
  {
    var f := Filter(rows, busy);
    forall r ensures r in f <==> r in rows && r.busy == busy {
      FilterMembers(rows, busy, r);
    }
    forall j, k | 0 <= j < k < |f|
      ensures Distinct(rows) ==> f[j].address != f[k].address
      ensures Sorted(rows) ==> f[j].speed >= f[k].speed
    {
      var x, y := FilterOrder(rows, busy, j, k);
    }
  }

  lemma {:induction false} FilterSizes(rows: seq<Row>)
    ensures |Filter(rows, true)| + |Filter(rows, false)| == |rows|
    ensures |Filter(rows, true)| == Count(IsBusy, rows)
  {
    if rows != [] { FilterSizes(rows[..|rows| - 1]); }
  }

  /** All leased rows, and idle rows as long as there is room. */
  lemma KeptIs(m: seq<Row>, maxKeep: nat)
    requires Distinct(m)
    ensures var kept := Kept(m, maxKeep);
            && Distinct(kept)
            && (forall r :: r in kept ==> r in m)
            && (forall r :: r in m && r.busy ==> r in kept)
            && |kept| == Max(Count(IsBusy, m), Min(|m|, maxKeep))
  {
    var leased, idle := Filter(m, true), Filter(m, false);
    FilterRows(m, true);
    FilterRows(m, false);
    FilterSizes(m);
    forall i, j | 0 <= i < |leased| && 0 <= j < |idle|
      ensures leased[i].address != idle[j].address
    {
      assert leased[i] in m && idle[j] in m;
    }
  }

  /** The idle rows that are kept are the fastest. */
  lemma KeptIdle(m: seq<Row>, maxKeep: nat, a: Row, b: Row)
    requires Sorted(m) && a in Kept(m, maxKeep) && !a.busy && b in m && b !in Kept(m, maxKeep)
    ensures a.speed >= b.speed
  {
    var leased, idle := Filter(m, true), Filter(m, false);
    var n := Min(|idle|, Room(|leased|, maxKeep));
    FilterRows(m, true);
    FilterRows(m, false);
    assert a in idle[..n] && b in idle;
    var i :| 0 <= i < n && idle[..n][i] == a;
    forall k | 0 <= k < n
      ensures idle[k] != b
    {
      assert idle[..n][k] in idle[..n];
    }
  }

  /** The addresses of the rows that satisfy p. */
  function Those(rows: seq<Row>, p: Row -> bool): set<Address> {
    set i | 0 <= i < |rows| && p(rows[i]) :: rows[i].address
  }

  lemma ThoseLast(rows: seq<Row>, p: Row -> bool)
    requires Distinct(rows) && rows != []
    ensures var n := |rows| - 1;
            && Those(rows, p) == Those(rows[..n], p) + (if p(rows[n]) then {rows[n].address} else {})
            && rows[n].address !in Those(rows[..n], p)
  {
    var n := |rows| - 1;
    assert forall i :: 0 <= i < n ==> rows[..n][i] == rows[i];
  }

  /** In a list of distinct rows, counting rows is counting addresses. */
  lemma {:induction false} CountIsSize(rows: seq<Row>, p: Row -> bool)
    requires Distinct(rows)
    ensures Count(p, rows) == |Those(rows, p)|
  {
    if rows != [] {
      ThoseLast(rows, p);
      CountIsSize(rows[..|rows| - 1], p);
    }
  }

  lemma BusyCount(rows: seq<Row>)
    requires Distinct(rows)
    ensures Count(IsBusy, rows) == |BusyAddresses(rows)|
  {
    CountIsSize(rows, IsBusy);
    assert Those(rows, IsBusy) == BusyAddresses(rows);
  }

  /** A list of the values of a map is as long as the map. */
  lemma ListsLength(rows: seq<Row>, m: map<Address, Row>)
    requires Lists(rows, m) && forall a :: a in m ==> m[a].address == a
    ensures |rows| == |m|
  {
    var all := r => true;
    CountIsSize(rows, all);
    CountBounds(all, rows);
    forall a
      ensures a in Those(rows, all) <==> a in m.Keys
    {
      if a in m {
        var i :| 0 <= i < |rows| && rows[i] == m[a];
        assert all(rows[i]);
      }
    }
    assert Those(rows, all) == m.Keys;
  }

  lemma MergedIsGood(rows: seq<Row>, tested: seq<Row>, left: seq<Row>, m: seq<Row>)
    requires PoolOk(rows) && TestedOk(tested)
    requires Lists(left, LeftOver(rows, tested)) && SortedFrom(Merged(rows, tested, left), m)
    ensures PoolOk(m) && BusyAddresses(m) == BusyAddresses(rows)
    ensures |m| == |tested| + |LeftOver(rows, tested)|
    ensures forall r :: r in m <==> r in Merged(rows, tested, left)
  {
    MergedRows(rows, tested, left);
    MergedBusy(rows, tested, left);
    SortKeepsPool(Merged(rows, tested, left), m);
    ListsLength(left, LeftOver(rows, tested));
  }

  lemma KeptIsGood(m: seq<Row>, maxKeep: nat, after: seq<Row>)
    requires PoolOk(m) && SortedFrom(Kept(m, maxKeep), after)
    ensures PoolOk(after) && BusyAddresses(after) == BusyAddresses(m)
    ensures forall r :: r in after <==> r in Kept(m, maxKeep)
    ensures |after| == Max(|BusyAddresses(m)|, Min(|m|, maxKeep))
  {
    KeptIs(m, maxKeep);
    var kept := Kept(m, maxKeep);
    forall i | 0 <= i < |kept|
      ensures RowOk(kept[i])
    {
      assert kept[i] in m;
    }
    SortKeepsPool(kept, after);
    SameBusy(m, kept);
    BusyCount(m);
  }

  lemma InstallKeepsFails(rows: seq<Row>, tested: seq<Row>, maxKeep: nat, left: seq<Row>, m: seq<Row>, after: seq<Row>)
    requires PoolOk(rows) && TestedOk(tested) && InstalledVia(rows, tested, maxKeep, left, m, after)
    ensures forall r, q :: r in after && r.busy && q in rows && q.address == r.address ==> q.busy && r.fails == q.fails
  {
    MergedIsGood(rows, tested, left, m);
    MergedRows(rows, tested, left);
    KeptIsGood(m, maxKeep, after);
    KeptIs(m, maxKeep);
    forall r, q | r in after && r.busy && q in rows && q.address == r.address
      ensures q.busy && r.fails == q.fails
    {
      assert r in Merged(rows, tested, left);
      var k :| 0 <= k < |rows| && rows[k] == q;
      OldRowIs(rows, k);
    }
  }

  lemma InstallCutsTheSlowest(rows: seq<Row>, tested: seq<Row>, maxKeep: nat, left: seq<Row>, m: seq<Row>, after: seq<Row>)
    requires PoolOk(rows) && TestedOk(tested) && InstalledVia(rows, tested, maxKeep, left, m, after)
    ensures forall a, t :: a in after && !a.busy && t in tested && (forall r :: r in after ==> r.address != t.address)
              ==> a.speed >= t.speed
  {
    MergedIsGood(rows, tested, left, m);
    MergedRows(rows, tested, left);
    KeptIsGood(m, maxKeep, after);
    KeptIs(m, maxKeep);
    forall a, t | a in after && !a.busy && t in tested && (forall r :: r in after ==> r.address != t.address)
      ensures a.speed >= t.speed
    {
      var i :| 0 <= i < |tested| && tested[i] == t;
      var b := Merged(rows, tested, left)[i];
      assert b in m && b.address == t.address && b !in Kept(m, maxKeep);
      KeptIdle(m, maxKeep, a, b);
    }
  }

  lemma AddressesSize(rows: seq<Row>)
    requires Distinct(rows)
    ensures |Addresses(rows)| == |rows|
  {
    var all := (r: Row) => true;
    CountIsSize(rows, all);
    CountBounds(all, rows);
    assert Those(rows, all) == Addresses(rows);
  }

  lemma LeftOverKeys(rows: seq<Row>, tested: seq<Row>)
    requires PoolOk(rows)
    ensures LeftOver(rows, tested).Keys == BusyAddresses(rows) - Addresses(tested)
  {
    OldBusyIs(rows);
  }

  lemma MergedSize(rows: seq<Row>, tested: seq<Row>)
    requires PoolOk(rows) && Distinct(tested)
    ensures |tested| + |LeftOver(rows, tested)| == |Addresses(tested) + BusyAddresses(rows)|
    ensures |LeftOver(rows, tested)| == |BusyAddresses(rows) - Addresses(tested)|
  {
    AddressesSize(tested);
    LeftOverKeys(rows, tested);
    var more := BusyAddresses(rows) - Addresses(tested);
    assert Addresses(tested) + BusyAddresses(rows) == Addresses(tested) + more;
  }

  /** The row is a leased one that was not scored, or a scored one with its lease. */
  predicate OldOrScored(rows: seq<Row>, tested: seq<Row>, r: Row) {
    || (r in rows && r.busy && r.address !in Addresses(tested))
    || (exists t :: t in tested && r == t.(busy := r.busy, fails := r.fails) && (r.busy || r.fails == 0))
  }

  lemma MergedRowIs(rows: seq<Row>, tested: seq<Row>, left: seq<Row>, i: nat)
    requires PoolOk(rows) && TestedOk(tested) && Lists(left, LeftOver(rows, tested)) && i < |Merged(rows, tested, left)|
    ensures OldOrScored(rows, tested, Merged(rows, tested, left)[i])
  {
    var r := Merged(rows, tested, left)[i];
    if i < |tested| {
      MarkAllIs(tested, OldBusy(rows));
      assert tested[i] in tested && r == tested[i].(busy := r.busy, fails := r.fails);
    } else {
      LeftRows(rows, tested, left);
      assert left[i - |tested|] == r;
      BusyAddressRow(rows, r.address);
    }
  }

  lemma InstalledRows(rows: seq<Row>, tested: seq<Row>, maxKeep: nat, left: seq<Row>, m: seq<Row>, after: seq<Row>)
    requires PoolOk(rows) && TestedOk(tested) && InstalledVia(rows, tested, maxKeep, left, m, after)
    ensures forall r :: r in after ==> OldOrScored(rows, tested, r)
  {
    MergedIsGood(rows, tested, left, m);
    KeptIsGood(m, maxKeep, after);
    KeptIs(m, maxKeep);
    var merged := Merged(rows, tested, left);
    forall r | r in after
      ensures OldOrScored(rows, tested, r)
    {
      assert r in merged;
      var i :| 0 <= i < |merged| && merged[i] == r;
      MergedRowIs(rows, tested, left, i);
    }
  }

  lemma BusyAddressRow(rows: seq<Row>, a: Address)
    requires Distinct(rows) && a in OldBusy(rows)
    ensures OldBusy(rows)[a] in rows
  {
    OldBusyIs(rows);
    var i :| 0 <= i < |rows| && rows[i].busy && rows[i].address == a;
  }

  /** install_tested keeps the pool good, keeps every lease and its failure count and adds none,
      fills the pool up to max_keep beside the leases, and leaves out no idle candidate that is
      faster than an idle row it keeps. Its rows are the scored ones, and the leased ones that were
      not scored, as they were. */
  lemma InstallKeeps(rows: seq<Row>, tested: seq<Row>, maxKeep: nat, after: seq<Row>)
    requires PoolOk(rows) && TestedOk(tested) && Installed(rows, tested, maxKeep, after)
    ensures PoolOk(after) && BusyAddresses(after) == BusyAddresses(rows)
    ensures forall r, q :: r in after && r.busy && q in rows && q.address == r.address ==> q.busy && r.fails == q.fails
    ensures |after| == Max(|BusyAddresses(rows)|, Min(|Addresses(tested) + BusyAddresses(rows)|, maxKeep))
    ensures forall a, t :: a in after && !a.busy && t in tested && (forall r :: r in after ==> r.address != t.address)
              ==> a.speed >= t.speed
    ensures forall r :: r in after ==> OldOrScored(rows, tested, r)
  {
    var left: seq<Row>, m: seq<Row> :| InstalledVia(rows, tested, maxKeep, left, m, after);
    InstalledRows(rows, tested, maxKeep, left, m, after);
    InstalledSize(rows, tested, maxKeep, left, m, after);
    InstallKeepsFails(rows, tested, maxKeep, left, m, after);
    InstallCutsTheSlowest(rows, tested, maxKeep, left, m, after);
  }

  lemma InstalledSize(rows: seq<Row>, tested: seq<Row>, maxKeep: nat, left: seq<Row>, m: seq<Row>, after: seq<Row>)
    requires PoolOk(rows) && TestedOk(tested) && InstalledVia(rows, tested, maxKeep, left, m, after)
    ensures PoolOk(after) && BusyAddresses(after) == BusyAddresses(rows)
    ensures |after| == Max(|BusyAddresses(rows)|, Min(|Addresses(tested) + BusyAddresses(rows)|, maxKeep))
  {
    MergedSize(rows, tested);
    MergedIsGood(rows, tested, left, m);
    KeptIsGood(m, maxKeep, after);
  }

  lemma SameBusy(m: seq<Row>, kept: seq<Row>)
    requires (forall r :: r in kept ==> r in m) && (forall r :: r in m && r.busy ==> r in kept)
    ensures BusyAddresses(kept) == BusyAddresses(m)
  {
    forall a
      ensures a in BusyAddresses(kept) <==> a in BusyAddresses(m)
    {
      if a in BusyAddresses(m) {
        var i :| 0 <= i < |m| && m[i].busy && m[i].address == a;
        assert m[i] in kept;
      }
      if a in BusyAddresses(kept) {
        var i :| 0 <= i < |kept| && kept[i].busy && kept[i].address == a;
        assert kept[i] in m;
      }
    }
  }

  // ---- when an address is scored twice ----

  lemma {:induction false} MarkAllAddresses(tested: seq<Row>, old_: map<Address, Row>)
    ensures forall i :: 0 <= i < |tested| ==> MarkAll(tested, old_).0[i].address == tested[i].address
  {
    if tested != [] { MarkAllAddresses(tested[..|tested| - 1], old_); }
  }

  lemma {:induction false} FilterBags(rows: seq<Row>)
    ensures multiset(Filter(rows, true)) + multiset(Filter(rows, false)) == multiset(rows)
  {
    if rows != [] {
      var n := |rows| - 1;
      assert rows == rows[..n] + [rows[n]];
      FilterBags(rows[..n]);
    }
  }

  lemma AllAreKept(m: seq<Row>, maxKeep: nat)
    requires maxKeep >= |m|
    ensures multiset(Kept(m, maxKeep)) == multiset(m)
  {
    FilterSizes(m);
    FilterBags(m);
    var idle := Filter(m, false);
    assert idle[..|idle|] == idle;
  }

  lemma MergedDistinctExactly(rows: seq<Row>, tested: seq<Row>, left: seq<Row>)
    requires PoolOk(rows) && Lists(left, LeftOver(rows, tested))
    ensures Distinct(Merged(rows, tested, left)) <==> Distinct(tested)
  {
    var merged := Merged(rows, tested, left);
    MarkAllAddresses(tested, OldBusy(rows));
    LeftRows(rows, tested, left);
    if Distinct(merged) {
      forall i, j | 0 <= i < j < |tested|
        ensures tested[i].address != tested[j].address
      {
        assert merged[i].address != merged[j].address;
      }
    }
  }

  /** When there is room for all, the new pool has each address once exactly if the scored list
      does: a repeated address makes a pool in which it can be leased twice. */
  lemma InstallDistinctExactly(rows: seq<Row>, tested: seq<Row>, maxKeep: nat, after: seq<Row>)
    requires PoolOk(rows) && Installed(rows, tested, maxKeep, after)
    requires maxKeep >= |tested| + |BusyAddresses(rows) - Addresses(tested)|
    ensures Distinct(after) <==> Distinct(tested)
  {
    LeftOverKeys(rows, tested);
    assert |LeftOver(rows, tested)| == |LeftOver(rows, tested).Keys|;
    var left: seq<Row>, m: seq<Row> :| InstalledVia(rows, tested, maxKeep, left, m, after);
    var merged := Merged(rows, tested, left);
    ListsLength(left, LeftOver(rows, tested));
    assert |multiset(m)| == |multiset(merged)|;
    AllAreKept(m, maxKeep);
    DistinctAsBag(after);
    DistinctAsBag(merged);
    MergedDistinctExactly(rows, tested, left);
  }

  lemma FilterAppend(rows: seq<Row>, r: Row, busy: bool)
    ensures Filter(rows + [r], busy) == Filter(rows, busy) + if r.busy == busy then [r] else []
  {
    assert (rows + [r])[..|rows|] == rows;
  }

  lemma MarkAppend(tested: seq<Row>, r: Row, old_: map<Address, Row>)
    ensures MarkAll(tested + [r], old_).0 == MarkAll(tested, old_).0 + [Marked(r, MarkAll(tested, old_).1)]
  {
    assert (tested + [r])[..|tested|] == tested;
  }

  lemma TwiceMerged(r: Row)
    requires RowOk(r) && !r.busy
    ensures MarkAll([r, r], map[]) == ([r, r], map[])
  {
    assert [r, r] == [r] + [r] && [r] == [] + [r];
    MarkAppend([], r, map[]);
    MarkAppend([r], r, map[]);
  }

  lemma TwiceKept(r: Row)
    requires !r.busy
    ensures Kept([r, r], 2) == [r, r]
  {
    assert [r, r] == [r] + [r] && [r] == [] + [r];
    FilterAppend([], r, true);
    FilterAppend([r], r, true);
    FilterAppend([], r, false);
    FilterAppend([r], r, false);
  }

  lemma TwiceInstalled(r: Row)
    requires RowOk(r) && !r.busy
    ensures Installed([], [r, r], 2, [r, r])
  {
    TwiceMerged(r);
    TwiceKept(r);
    assert InstalledVia([], [r, r], 2, [], [r, r], [r, r]);
  }

  /** The smallest case: a proxy that is scored twice is handed out twice. */
  lemma ScoredTwiceIsLeasedTwice(r: Row)
    requires RowOk(r) && !r.busy && r.targetOk
    ensures Installed([], [r, r], 2, [r, r])
    ensures var leased := r.(busy := true);
            && Acquired([r, r], false, [], [leased, r], Some(leased))
            && Acquired([leased, r], false, [], [leased, leased], Some(leased))
  {
    var leased := r.(busy := true);
    TwiceInstalled(r);
    assert AcquiredAt([r, r], false, [], [leased, r], leased, 0);
    assert AcquiredAt([leased, r], false, [], [leased, leased], leased, 1);
  }

  // ---- TARGET ----

  lemma SameLeases(rows: seq<Row>, t: seq<Row>)
    requires |rows| == |t| && forall i :: 0 <= i < |rows| ==> t[i].busy == rows[i].busy && t[i].address == rows[i].address
    ensures BusyAddresses(t) == BusyAddresses(rows)
  {
    forall a
      ensures a in BusyAddresses(t) <==> a in BusyAddresses(rows)
    {
      if a in BusyAddresses(rows) {
        var i :| 0 <= i < |rows| && rows[i].busy && rows[i].address == a;
        assert t[i].busy && t[i].address == a;
      }
      if a in BusyAddresses(t) {
        var i :| 0 <= i < |t| && t[i].busy && t[i].address == a;
        assert rows[i].busy && rows[i].address == a;
      }
    }
  }

  /** While the test runs nothing can be leased. */
  lemma TargetStartKeeps(rows: seq<Row>)
    requires PoolOk(rows)
    ensures PoolOk(TargetStarted(rows)) && BusyAddresses(TargetStarted(rows)) == BusyAddresses(rows)
    ensures forall skip, honorSkip :: NoCandidate(TargetStarted(rows), true, skip, honorSkip)
    ensures var t := TargetStarted(rows);
            |t| == |rows| && forall i :: 0 <= i < |rows| ==> !t[i].targetOk && t[i].(targetOk := rows[i].targetOk) == rows[i]
  {
    SameLeases(rows, TargetStarted(rows));
  }

  /** The row as the target test leaves it. */
  predicate Retested(q: Row, passed: map<Address, real>, r: Row) {
    && r.address == q.address && r.busy == q.busy && (r.targetOk <==> q.address in passed)
    && (q.address in passed ==> r.speed == passed[q.address] && r.fails == 0)
    && (q.address !in passed ==> r.speed == q.speed && r.fails == q.fails)
  }

  lemma TargetRowsAre(rows: seq<Row>, passed: map<Address, real>)
    requires Distinct(rows)
    ensures forall q, r :: q in rows && r in TargetRows(rows, passed) && q.address == r.address ==> Retested(q, passed, r)
    ensures Addresses(TargetRows(rows, passed)) == Addresses(rows)
  {
    var t := TargetRows(rows, passed);
    forall q, r | q in rows && r in t && q.address == r.address
      ensures Retested(q, passed, r)
    {
      var i :| 0 <= i < |rows| && rows[i] == q;
      var j :| 0 <= j < |t| && t[j] == r;
      assert rows[i].address == rows[j].address;
    }
    forall a | a in Addresses(rows)
      ensures a in Addresses(t)
    {
      var i :| 0 <= i < |rows| && rows[i].address == a;
      assert t[i].address == a;
    }
  }

  lemma SameAddresses(before: seq<Row>, after: seq<Row>)
    requires forall r :: r in after <==> r in before
    ensures Addresses(after) == Addresses(before)
  {
    AddressesOf(before);
    AddressesOf(after);
  }

  /** After a target test the leasable rows are those that passed it, with the measured speed and
      without failures; the others are as they were. */
  lemma TargetKeeps(rows: seq<Row>, passed: map<Address, real>, after: seq<Row>)
    requires PoolOk(rows) && SortedFrom(TargetRows(rows, passed), after)
    requires forall a :: a in passed ==> passed[a] > 0.0
    ensures PoolOk(after) && BusyAddresses(after) == BusyAddresses(rows)
    ensures forall r :: r in after ==> (r.targetOk <==> r.address in passed)
    ensures Addresses(after) == Addresses(rows)
    ensures forall q, r :: q in rows && r in after && q.address == r.address ==> Retested(q, passed, r)
  {
    SortKeepsPool(TargetRows(rows, passed), after);
    SameLeases(rows, TargetRows(rows, passed));
    TargetRowsAre(rows, passed);
    SameAddresses(TargetRows(rows, passed), after);
  }

  lemma LiveAfterTarget(rows: seq<Row>, passed: map<Address, real>)
    requires PoolOk(rows) && passed.Keys <= Addresses(rows)
    ensures Distinct(TargetRows(rows, passed))
    ensures Those(TargetRows(rows, passed), LiveTest(true)) == passed.Keys
  {
    var t := TargetRows(rows, passed);
    forall a
      ensures a in Those(t, LiveTest(true)) <==> a in passed.Keys
    {
      if a in passed {
        var i :| 0 <= i < |rows| && rows[i].address == a;
        assert t[i].address == a && LiveTest(true)(t[i]);
      }
    }
  }

  /** Before a target is set every row is live, and after that those that have reached it. */
  lemma LiveCounts(rows: seq<Row>)
    requires PoolOk(rows)
    ensures Count(LiveTest(false), rows) == |rows|
    ensures Count(LiveTest(true), rows) == |set i | 0 <= i < |rows| && rows[i].targetOk :: rows[i].address|
  {
    CountBounds(LiveTest(false), rows);
    CountIsSize(rows, LiveTest(true));
    assert Those(rows, LiveTest(true)) == set i | 0 <= i < |rows| && rows[i].targetOk :: rows[i].address;
  }

  /** If the pool still has every row that passed, the number reported is the number of live rows. */
  lemma TargetCount(rows: seq<Row>, passed: map<Address, real>, after: seq<Row>)
    requires PoolOk(rows) && SortedFrom(TargetRows(rows, passed), after)
    requires passed.Keys <= Addresses(rows)
    ensures Count(LiveTest(true), after) == |passed|
  {
    LiveAfterTarget(rows, passed);
    CountOfBag(LiveTest(true), TargetRows(rows, passed), after);
    CountIsSize(TargetRows(rows, passed), LiveTest(true));
  }

  function Addresses(rows: seq<Row>): set<Address> { set i | 0 <= i < |rows| :: rows[i].address }
}
