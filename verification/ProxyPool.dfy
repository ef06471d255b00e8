/** The scored proxy pool of the daemon (src/proxy_engine.cpp). Speeds are real numbers. */
module ProxyPool {
  import opened Wrappers
  import opened Counting

  type Address = string

  /** One scored proxy; latency is never read by the code modelled here. */
  datatype Row = Row(address: Address, speed: real, fails: int, alive: bool, busy: bool, targetOk: bool)

  const MAX_FAILS := 4

  // ---- properties of a list of rows ----

  /** Fastest first. */
  predicate Sorted(rows: seq<Row>) {
    forall i, j :: 0 <= i < j < |rows| ==> rows[i].speed >= rows[j].speed
  }

  predicate Distinct(rows: seq<Row>) {
    forall i, j :: 0 <= i < j < |rows| ==> rows[i].address != rows[j].address
  }

  predicate RowOk(r: Row) { r.alive && 0 <= r.fails < MAX_FAILS && r.speed > 0.0 }

  /** What every operation keeps. */
  predicate PoolOk(rows: seq<Row>) {
    Sorted(rows) && Distinct(rows) && forall i :: 0 <= i < |rows| ==> RowOk(rows[i])
  }

  predicate IsBusy(r: Row) { r.busy }

  /** The leased addresses. */
  function BusyAddresses(rows: seq<Row>): set<Address> {
    set i | 0 <= i < |rows| && rows[i].busy :: rows[i].address
  }

  // ---- acquire ----

  predicate Eligible(r: Row, filter: bool) {
    r.alive && !r.busy && r.fails < MAX_FAILS && (filter ==> r.targetOk)
  }

  /** The row may be leased in a pass that does, or does not, honour the skip list. */
  predicate Candidate(r: Row, filter: bool, skip: seq<Address>, honorSkip: bool) {
    Eligible(r, filter) && (honorSkip ==> r.address !in skip)
  }

  /** k is the first candidate of the pass. */
  predicate FirstCandidate(rows: seq<Row>, filter: bool, skip: seq<Address>, honorSkip: bool, k: nat) {
    && k < |rows| && Candidate(rows[k], filter, skip, honorSkip)
    && forall j :: 0 <= j < k ==> !Candidate(rows[j], filter, skip, honorSkip)
  }

  predicate NoCandidate(rows: seq<Row>, filter: bool, skip: seq<Address>, honorSkip: bool) {
    forall j :: 0 <= j < |rows| ==> !Candidate(rows[j], filter, skip, honorSkip)
  }

  /** acquire takes row k: the first candidate of the first pass, or of the second when the
      first has none. */
  predicate AcquiredAt(rows: seq<Row>, filter: bool, skip: seq<Address>, after: seq<Row>, r: Row, k: nat) {
    && k < |rows| && after == rows[k := r] && r == rows[k].(busy := true)
    && if NoCandidate(rows, filter, skip, true) then FirstCandidate(rows, filter, skip, false, k)
       else FirstCandidate(rows, filter, skip, true, k)
  }

  ghost predicate Acquired(rows: seq<Row>, filter: bool, skip: seq<Address>, after: seq<Row>, got: Option<Row>) {
    match got
    case None => after == rows && NoCandidate(rows, filter, skip, false)
    case Some(r) => exists k: nat :: AcquiredAt(rows, filter, skip, after, r, k)
  }

  // ---- release ----

  function ReleasedRow(r: Row, ok: bool, mbps: real): Row {
    if ok then
      r.(busy := false, fails := 0, alive := true,
         speed := if mbps > 0.0 then r.speed * 0.7 + mbps * 0.3 else r.speed)
    else
      r.(busy := false, fails := r.fails + 1, speed := r.speed * 0.25,
         alive := r.alive && r.fails + 1 < MAX_FAILS)
  }

  /** The rows after the loop of release: the first row with the address is updated, or erased
      when it died. */
  function AfterRelease(rows: seq<Row>, url: Address, ok: bool, mbps: real): seq<Row> {
    if rows == [] then []
    else if rows[0].address != url then [rows[0]] + AfterRelease(rows[1..], url, ok, mbps)
    else
      var r := ReleasedRow(rows[0], ok, mbps);
      if !r.alive then rows[1..] else [r] + rows[1..]
  }

  /** Row i is the first with the address, or there is none and i is the length. */
  lemma {:induction false} AfterReleaseAt(rows: seq<Row>, url: Address, ok: bool, mbps: real, i: nat)
    requires i <= |rows| && (forall j :: 0 <= j < i ==> rows[j].address != url)
    requires i < |rows| ==> rows[i].address == url
    ensures AfterRelease(rows, url, ok, mbps) ==
            if i == |rows| then rows
            else if ReleasedRow(rows[i], ok, mbps).alive then rows[i := ReleasedRow(rows[i], ok, mbps)]
            else rows[..i] + rows[i + 1..]
  {
    if i > 0 {
      AfterReleaseAt(rows[1..], url, ok, mbps, i - 1);
    }
  }

  /** std::sort: some sorted arrangement of the same rows. */
  predicate SortedFrom(before: seq<Row>, after: seq<Row>) {
    Sorted(after) && multiset(after) == multiset(before)
  }

  predicate Released(rows: seq<Row>, url: Address, ok: bool, mbps: real, after: seq<Row>) {
    SortedFrom(AfterRelease(rows, url, ok, mbps), after)
  }

  // ---- install_tested ----

  /** The leases to carry over, by address; the first row of an address wins. */
  function OldBusy(rows: seq<Row>): (m: map<Address, Row>)
    ensures forall a :: a in m ==> m[a].address == a && m[a].busy
  {
    if rows == [] then map[]
    else
      var m, r := OldBusy(rows[..|rows| - 1]), rows[|rows| - 1];
      if r.busy && r.address !in m then m[r.address := r] else m
  }

  /** A tested row takes over the lease and the failures of the row it replaces. */
  function Marked(t: Row, old_: map<Address, Row>): Row {
    if t.address in old_ then t.(busy := true, fails := old_[t.address].fails) else t
  }

  /** The tested rows with leases taken over, each lease once, and the leases left over. */
  function MarkAll(tested: seq<Row>, old_: map<Address, Row>): (r: (seq<Row>, map<Address, Row>))
    ensures |r.0| == |tested|
    ensures r.1 == old_ - (set i | 0 <= i < |tested| :: tested[i].address)
  {
    if tested == [] then ([], old_)
    else
      var n := |tested| - 1;
      var (front, left) := MarkAll(tested[..n], old_);
      (front + [Marked(tested[n], left)], left - {tested[n].address})
  }

  /** `rows` lists the values of a map, in the order of iteration. */
  predicate Lists(rows: seq<Row>, m: map<Address, Row>) {
    && (forall i :: 0 <= i < |rows| ==> rows[i].address in m && m[rows[i].address] == rows[i])
    && (forall a :: a in m ==> m[a] in rows)
    && Distinct(rows)
  }

  function Filter(rows: seq<Row>, busy: bool): seq<Row> {
    if rows == [] then []
    else
      var front, r := Filter(rows[..|rows| - 1], busy), rows[|rows| - 1];
      if r.busy == busy then front + [r] else front
  }

  function Room(busy: nat, maxKeep: nat): nat { if busy < maxKeep then maxKeep - busy else 0 }

  function Kept(merged: seq<Row>, maxKeep: nat): seq<Row> {
    var leased, idle := Filter(merged, true), Filter(merged, false);
    leased + idle[..Min(|idle|, Room(|leased|, maxKeep))]
  }

  /** The leases that no tested row takes over. */
  function LeftOver(rows: seq<Row>, tested: seq<Row>): map<Address, Row> {
    MarkAll(tested, OldBusy(rows)).1
  }

  /** The merged list before it is sorted. */
  function Merged(rows: seq<Row>, tested: seq<Row>, left: seq<Row>): seq<Row> {
    MarkAll(tested, OldBusy(rows)).0 + left
  }

  /** The two lists of rows between the pool before and after. */
  ghost predicate InstalledVia(rows: seq<Row>, tested: seq<Row>, maxKeep: nat, left: seq<Row>, m: seq<Row>, after: seq<Row>) {
    && Lists(left, LeftOver(rows, tested))
    && SortedFrom(Merged(rows, tested, left), m)
    && SortedFrom(Kept(m, maxKeep), after)
  }

  /** install_tested: merge, sort, keep all leased rows and the first idle ones, sort again. */
  ghost predicate Installed(rows: seq<Row>, tested: seq<Row>, maxKeep: nat, after: seq<Row>) {
    exists left: seq<Row>, m: seq<Row> :: InstalledVia(rows, tested, maxKeep, left, m, after)
  }

  // ---- TARGET ----

  function TargetStarted(rows: seq<Row>): seq<Row> {
    seq(|rows|, i requires 0 <= i < |rows| => rows[i].(targetOk := false))
  }

  function TargetRow(r: Row, passed: map<Address, real>): Row {
    if r.address in passed then r.(targetOk := true, speed := passed[r.address], fails := 0, alive := true)
    else r.(targetOk := false)
  }

  function TargetRows(rows: seq<Row>, passed: map<Address, real>): seq<Row> {
    seq(|rows|, i requires 0 <= i < |rows| => TargetRow(rows[i], passed))
  }

  predicate IsLive(r: Row, filter: bool) { r.alive && (filter ==> r.targetOk) }

  function LiveTest(filter: bool): Row -> bool { r => IsLive(r, filter) }

  method Insert(rows: seq<Row>, r: Row) returns (out: seq<Row>)
    requires Sorted(rows)
    ensures Sorted(out) && multiset(out) == multiset(rows) + multiset{r}
  {
    var k := 0;
    while k < |rows| && rows[k].speed >= r.speed
      invariant 0 <= k <= |rows| && forall j :: 0 <= j < k ==> rows[j].speed >= r.speed
    {
      k := k + 1;
    }
    assert rows == rows[..k] + rows[k..];
    out := rows[..k] + [r] + rows[k..];
  }

  /** Insertion sort; stands in for std::sort, whose result is any sorted arrangement. */
  method Sort(rows: seq<Row>) returns (out: seq<Row>)
    ensures SortedFrom(rows, out)
  {
    out := [];
    var i := 0;
    while i < |rows|
      invariant 0 <= i <= |rows| && Sorted(out) && multiset(out) == multiset(rows[..i])
    {
      assert rows[..i + 1] == rows[..i] + [rows[i]];
      out := Insert(out, rows[i]);
      i := i + 1;
    }
    assert rows[..i] == rows;
  }

  /** The pool as the daemon's threads see it: every method is one critical section. */
  class ProxyEngine {
    var pool: seq<Row>
    var filter: bool
    const maxKeep: nat

    constructor (maxKeep: nat)
      ensures pool == [] && !filter && this.maxKeep == maxKeep
    {
      pool := [];
      filter := false;
      this.maxKeep := maxKeep;
    }

    /** One pass of acquire over the rows. */
    method Pick(skip: seq<Address>, honorSkip: bool) returns (got: Option<Row>)
      modifies this`pool
      ensures match got
              case None => pool == old(pool) && NoCandidate(old(pool), filter, skip, honorSkip)
              case Some(r) => exists k: nat :: FirstCandidate(old(pool), filter, skip, honorSkip, k)
                                               && r == old(pool)[k].(busy := true) && pool == old(pool)[k := r]
    {
      var k := 0;
      while k < |pool|
        invariant 0 <= k <= |pool| && pool == old(pool)
        invariant forall j :: 0 <= j < k ==> !Candidate(pool[j], filter, skip, honorSkip)
      {
        if Candidate(pool[k], filter, skip, honorSkip) {
          var r := pool[k].(busy := true);
          assert FirstCandidate(pool, filter, skip, honorSkip, k);
          pool := pool[k := r];
          return Some(r);
        }
        k := k + 1;
      }
      return None;
    }

    method Acquire(skip: seq<Address>) returns (got: Option<Row>)
      modifies this`pool
      ensures Acquired(old(pool), filter, skip, pool, got)
    {
      got := Pick(skip, true);
      if got.None? {
        got := Pick(skip, false);
      }
      if got.Some? {
        ghost var k: nat :| k < |old(pool)| && got.value == old(pool)[k].(busy := true)
          && pool == old(pool)[k := got.value]
          && if NoCandidate(old(pool), filter, skip, true) then FirstCandidate(old(pool), filter, skip, false, k)
             else FirstCandidate(old(pool), filter, skip, true, k);
        assert AcquiredAt(old(pool), filter, skip, pool, got.value, k);
      }
    }

    method Release(url: Address, ok: bool, mbps: real)
      modifies this`pool
      ensures Released(old(pool), url, ok, mbps, pool)
    {
      var rows := pool;
      var i := 0;
      while i < |rows| && rows[i].address != url
        invariant 0 <= i <= |rows| && forall j :: 0 <= j < i ==> rows[j].address != url
      {
        i := i + 1;
      }
      AfterReleaseAt(rows, url, ok, mbps, i);
      if i < |rows| {
        var r := ReleasedRow(rows[i], ok, mbps);
        rows := if r.alive then rows[i := r] else rows[..i] + rows[i + 1..];
      }
      pool := Sort(rows);
    }

    method InstallTested(tested: seq<Row>)
      modifies this`pool
      ensures Installed(old(pool), tested, maxKeep, pool)
    {
      var left: map<Address, Row> := map[];
      var i := 0;
      while i < |pool|
        invariant 0 <= i <= |pool| && left == OldBusy(pool[..i])
      {
        assert pool[..i + 1][..i] == pool[..i];
        if pool[i].busy && pool[i].address !in left {
          left := left[pool[i].address := pool[i]];
        }
        i := i + 1;
      }
      assert pool[..i] == pool;
      ghost var old_ := left;
      var merged: seq<Row> := [];
      i := 0;
      while i < |tested|
        invariant 0 <= i <= |tested| && (merged, left) == MarkAll(tested[..i], old_)
      {
        assert tested[..i + 1][..i] == tested[..i];
        merged := merged + [Marked(tested[i], left)];
        left := left - {tested[i].address};
        i := i + 1;
      }
      assert tested[..i] == tested;
      var rest := ListValues(left);
      merged := Sort(merged + rest);
      var kept := Select(merged, maxKeep);
      pool := Sort(kept);
      assert InstalledVia(old(pool), tested, maxKeep, rest, merged, pool);
    }

    /** The first critical section of verify_target. */
    method BeginTarget() returns (addresses: seq<Address>)
      modifies this
      ensures filter && pool == TargetStarted(old(pool))
      ensures forall a :: a in addresses <==> exists i :: 0 <= i < |pool| && pool[i].alive && pool[i].address == a
    {
      filter := true;
      addresses := [];
      var i := 0;
      while i < |pool|
        invariant filter && 0 <= i <= |pool| == |old(pool)|
        invariant forall j :: 0 <= j < |pool| ==> pool[j] == if j < i then old(pool)[j].(targetOk := false) else old(pool)[j]
        invariant forall a :: a in addresses <==> exists j :: 0 <= j < i && pool[j].alive && pool[j].address == a
      {
        pool := pool[i := pool[i].(targetOk := false)];
        if pool[i].alive {
          addresses := addresses + [pool[i].address];
        }
        i := i + 1;
      }
    }

    /** The second one, with the speeds of the proxies that passed the Range test. */
    method EndTarget(passed: map<Address, real>) returns (n: nat)
      modifies this`pool
      ensures SortedFrom(TargetRows(old(pool), passed), pool) && n == |passed|
    {
      var rows := pool;
      var i := 0;
      while i < |rows|
        invariant 0 <= i <= |rows| == |old(pool)|
        invariant forall j :: 0 <= j < |rows| ==> rows[j] == if j < i then TargetRow(old(pool)[j], passed) else old(pool)[j]
      {
        rows := rows[i := TargetRow(rows[i], passed)];
        i := i + 1;
      }
      assert rows == TargetRows(old(pool), passed);
      pool := Sort(rows);
      n := |passed|;
    }

    method Live() returns (n: nat)
      ensures n == Count(LiveTest(filter), pool)
    {
      n := 0;
      var i := 0;
      while i < |pool|
        invariant 0 <= i <= |pool| && n == Count(LiveTest(filter), pool[..i])
      {
        assert pool[..i + 1][..i] == pool[..i];
        if IsLive(pool[i], filter) {
          n := n + 1;
        }
        i := i + 1;
      }
      assert pool[..i] == pool;
    }

    method Busy() returns (n: nat)
      ensures n == Count(IsBusy, pool)
    {
      n := 0;
      var i := 0;
      while i < |pool|
        invariant 0 <= i <= |pool| && n == Count(IsBusy, pool[..i])
      {
        assert pool[..i + 1][..i] == pool[..i];
        if pool[i].busy {
          n := n + 1;
        }
        i := i + 1;
      }
      assert pool[..i] == pool;
    }

    /** The speed of the fastest row, 0 for an empty pool. */
    method TopMbps() returns (top: real)
      ensures pool == [] ==> top == 0.0
      ensures pool != [] && Sorted(pool) ==>
                (exists i :: 0 <= i < |pool| && pool[i].speed == top)
                && forall i :: 0 <= i < |pool| ==> pool[i].speed <= top
    {
      top := if pool == [] then 0.0 else pool[0].speed;
    }
  }

  /** Iteration over a map of rows, in no particular order. */
  method ListValues(m: map<Address, Row>) returns (rows: seq<Row>)
    requires forall a :: a in m ==> m[a].address == a
    ensures Lists(rows, m)
  {
    rows := [];
    var todo := m;
    while todo.Keys != {}
      invariant forall a :: a in todo ==> a in m && todo[a] == m[a]
      invariant forall i :: 0 <= i < |rows| ==> rows[i].address in m && m[rows[i].address] == rows[i] && rows[i].address !in todo
      invariant forall a :: a in m ==> a in todo || m[a] in rows
      invariant Distinct(rows)
      decreases todo.Keys
    {
      var a :| a in todo.Keys;
      rows := rows + [todo[a]];
      todo := todo - {a};
    }
  }

  /** The two selection loops of install_tested over the sorted rows. */
  method Select(merged: seq<Row>, maxKeep: nat) returns (kept: seq<Row>)
    ensures kept == Kept(merged, maxKeep)
  {
    kept := [];
    var taken := seq(|merged|, _ => false);
    var i := 0;
    while i < |merged|
      invariant 0 <= i <= |merged| == |taken|
      invariant forall j :: 0 <= j < |merged| ==> (taken[j] <==> j < i && merged[j].busy)
      invariant kept == Filter(merged[..i], true)
    {
      assert merged[..i + 1][..i] == merged[..i];
      if merged[i].busy {
        kept := kept + [merged[i]];
        taken := taken[i := true];
      }
      i := i + 1;
    }
    assert merged[..i] == merged;
    ghost var leased := kept;
    i := 0;
    while i < |merged| && |kept| < maxKeep
      invariant 0 <= i <= |merged| == |taken|
      invariant forall j :: i <= j < |merged| ==> (taken[j] <==> merged[j].busy)
      invariant kept == leased + Filter(merged[..i], false)
      invariant |leased| <= |kept| && (|kept| <= maxKeep || kept == leased)
    {
      assert merged[..i + 1][..i] == merged[..i];
      if !taken[i] {
        kept := kept + [merged[i]];
        taken := taken[i := true];
      }
      i := i + 1;
    }
    FilterPrefix(merged, i, false);
    assert merged[..|merged|] == merged;
  }

  lemma {:induction false} FilterPrefix(rows: seq<Row>, n: nat, busy: bool)
    requires n <= |rows|
    ensures Filter(rows[..n], busy) <= Filter(rows, busy)
    decreases |rows|
  {
    if n < |rows| {
      assert rows[..|rows| - 1][..n] == rows[..n];
      FilterPrefix(rows[..|rows| - 1], n, busy);
    } else {
      assert rows[..n] == rows;
    }
  }
}
