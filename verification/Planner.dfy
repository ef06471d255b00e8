/** Byte-range planning (include/proxchunk/plan.hpp, include/proxchunk/plan_n.h).

    The arithmetic runs in the machine widths of the program; a plan itself holds
    mathematical integers, so that the rest of the model need not carry widths. */
module Planner {
  import opened Wrappers

  const INT64_MAX: int := 0x7fff_ffff_ffff_ffff
  const INT32_MAX: int := 0x7fff_ffff

  newtype int64 = x: int | -0x8000_0000_0000_0000 <= x <= INT64_MAX
  newtype int32 = x: int | -0x8000_0000 <= x <= INT32_MAX

  /** Both offsets are inclusive. */
  datatype Chunk = Chunk(start: int, end: int, id: int)

  function Want(ch: Chunk): int { ch.end - ch.start + 1 }

  /** The plan cuts [0, size) into non-empty ranges, in order and without gaps. */
  predicate Covers(plan: seq<Chunk>, size: int) {
    && (plan == [] <==> size <= 0)
    && (plan != [] ==> plan[0].start == 0 && plan[|plan| - 1].end == size - 1)
    && (forall i :: 0 <= i < |plan| ==> plan[i].id == i && plan[i].start <= plan[i].end)
    && (forall i :: 0 < i < |plan| ==> plan[i].start == plan[i - 1].end + 1)
  }

  /** Chunk i starts where chunk i-1 ends, hence after the start of every earlier one. */
  lemma {:induction false} StartsIncrease(plan: seq<Chunk>, size: int, i: nat, j: nat)
    requires Covers(plan, size) && i < j < |plan|
    ensures plan[i].end < plan[j].start
    decreases j
  {
    if i + 1 < j {
      StartsIncrease(plan, size, i, j - 1);
    }
  }

  /** The index of the chunk that holds byte b, searched backwards from chunk k. */
  lemma {:induction false} SomeChunkHolds(plan: seq<Chunk>, size: int, b: int, k: nat) returns (i: nat)
    requires Covers(plan, size) && k < |plan| && 0 <= b <= plan[k].end
    ensures i <= k && plan[i].start <= b <= plan[i].end
    decreases k
  {
    if plan[k].start <= b {
      i := k;
    } else {
      i := SomeChunkHolds(plan, size, b, k - 1);
    }
  }

  /** Every byte of the download lies in exactly one chunk, and no chunk reaches outside. */
  lemma EveryByteOnce(plan: seq<Chunk>, size: int, b: int)
    requires Covers(plan, size)
    ensures 0 <= b < size <==> exists i :: 0 <= i < |plan| && plan[i].start <= b <= plan[i].end
    ensures forall i, j ::
              (0 <= i < |plan| && plan[i].start <= b <= plan[i].end
               && 0 <= j < |plan| && plan[j].start <= b <= plan[j].end) ==> i == j
  {
    if 0 <= b < size {
      var i := SomeChunkHolds(plan, size, b, |plan| - 1);
    }
    forall i, j | 0 <= i < j < |plan|
      ensures plan[i].end < plan[j].start
    {
      StartsIncrease(plan, size, i, j);
    }
    if i :| 0 <= i < |plan| && plan[i].start <= b <= plan[i].end {
      assert i == 0 || plan[0].end < plan[i].start;
      assert i == |plan| - 1 || plan[i].end < plan[|plan| - 1].start;
    }
  }

  /** The number of chunks of b bytes that cover size bytes. */
  function ChunkCount(size: int, b: int): (n: int)
    requires b > 0
    ensures n >= 0 && (n == 0 <==> size <= 0)
  {
    if size <= 0 then 0 else (size - 1) / b + 1
  }

  /** It is the ceiling of size / b. */
  lemma ChunkCountIsCeiling(size: int, b: int)
    requires b > 0 && size > 0
    ensures (ChunkCount(size, b) - 1) * b < size <= ChunkCount(size, b) * b
  {
  }

  /** What the loop of plan_chunks needs of its arguments so that neither the offset nor
      the chunk number leaves its machine type. */
  predicate PlanFits(size: int, b: int)
    requires b > 0
  {
    ChunkCount(size, b) * b <= INT64_MAX && ChunkCount(size, b) <= INT32_MAX
  }

  /** The values iteration k of the loop computes: the offset behind its chunk, and the
      id that follows its own. */
  predicate IterationFits(k: nat, b: int) {
    (k + 1) * b <= INT64_MAX && k + 1 <= INT32_MAX
  }

  /** PlanFits is exact: it holds just when no iteration of the loop overflows. */
  lemma PlanFitsExactly(size: int, b: int)
    requires b > 0 && size > 0
    ensures PlanFits(size, b) <==> forall k: nat :: k < ChunkCount(size, b) ==> IterationFits(k, b)
  {
    var n := ChunkCount(size, b);
    assert PlanFits(size, b) == IterationFits(n - 1, b);
    forall k: nat | k < n
      ensures IterationFits(n - 1, b) ==> IterationFits(k, b)
    {
      MulMonotone(k + 1, n, b);
    }
  }

  lemma MulMonotone(x: int, y: int, b: int)
    requires x <= y && 0 <= b
    ensures x * b <= y * b
  {
  }

  /** Two sizes for which the loop overflows: a file of 2^51 bytes in chunks of 1 MiB has too many
      chunks for their number, and the last offset for INT64_MAX bytes in chunks of 2^62 is 2^63. */
  lemma PlanOverflows()
    ensures !PlanFits(0x8_0000_0000_0000, MEBIBYTE as int)
    ensures !PlanFits(INT64_MAX, 0x4000_0000_0000_0000)
  {
    assert ChunkCount(0x8_0000_0000_0000, 0x10_0000) == 0x8000_0000;
    assert ChunkCount(INT64_MAX, 0x4000_0000_0000_0000) == 2;
  }

  /** For sizes with headroom of one chunk no overflow is possible. */
  lemma HeadroomFits(size: int, b: int)
    requires b > 0 && size > 0 && size + b <= INT64_MAX + 1 && ChunkCount(size, b) <= INT32_MAX
    ensures PlanFits(size, b)
  {
    var n := ChunkCount(size, b);
    ChunkCountIsCeiling(size, b);
    assert n * b == (n - 1) * b + b;
  }

  /** The offset of chunk k: b added k times. */
  function Offset(k: nat, b: int): int { if k == 0 then 0 else Offset(k - 1, b) + b }

  lemma {:induction false} OffsetIsProduct(k: nat, b: int)
    ensures Offset(k, b) == k * b
  {
    if k > 0 { OffsetIsProduct(k - 1, b); }
  }

  /** The k-th offset is inside the file just while k is a chunk number; the next one fits. */
  lemma NextOffset(size: int, b: int, k: nat)
    requires b > 0 && size > 0
    ensures Offset(k, b) < size <==> k < ChunkCount(size, b)
    ensures k < ChunkCount(size, b) ==> Offset(k + 1, b) <= ChunkCount(size, b) * b
  {
    var n := ChunkCount(size, b);
    ChunkCountIsCeiling(size, b);
    OffsetIsProduct(k, b);
    if k < n {
      OffsetIsProduct(k + 1, b);
      MulMonotone(k, n - 1, b);
      MulMonotone(k + 1, n, b);
    } else {
      MulMonotone(n, k, b);
    }
  }

  /** plan_chunks: chunks of chunkBytes bytes, the last one shorter. */
  method PlanChunks(size: int64, chunkBytes: int64) returns (out: seq<Chunk>)
    requires chunkBytes > 0 ==> PlanFits(size as int, chunkBytes as int)
    ensures size <= 0 || chunkBytes <= 0 ==> out == []
    ensures chunkBytes > 0 ==> Covers(out, size as int) && |out| == ChunkCount(size as int, chunkBytes as int)
    ensures forall i :: 0 <= i < |out| - 1 ==> Want(out[i]) == chunkBytes as int
    ensures forall i :: 0 <= i < |out| ==> 1 <= Want(out[i]) <= chunkBytes as int
  {
    out := [];
    if size <= 0 || chunkBytes <= 0 {
      return;
    }
    ghost var b, n := chunkBytes as int, ChunkCount(size as int, chunkBytes as int);
    var id: int32 := 0;
    var off: int64 := 0;
    while off < size
      invariant |out| == id as int <= n && 0 <= off as int == Offset(|out|, b)
      invariant forall i :: 0 <= i < |out| ==> out[i].id == i && 1 <= Want(out[i]) <= b
      invariant forall i :: 0 <= i < |out| ==> Want(out[i]) == b || (i == |out| - 1 && off >= size)
      invariant forall i :: 0 < i < |out| ==> out[i].start == out[i - 1].end + 1
      invariant out != [] ==> out[0].start == 0 && out[|out| - 1].end + 1 == Min(off as int, size as int)
      decreases n - |out|
    {
      NextOffset(size as int, b, |out|);
      var end := if off + chunkBytes - 1 < size - 1 then off + chunkBytes - 1 else size - 1;
      out := out + [Chunk(off as int, end as int, id as int)];
      id := id + 1;
      off := off + chunkBytes;
    }
    NextOffset(size as int, b, |out|);
  }

  /** plan_n_piece_count: min(nPieces, size), so that every piece has a byte. */
  function PieceCount(size: int64, nPieces: int32): (n: int32)
    ensures n as int == if size <= 0 || nPieces < 1 then 0 else Min(size as int, nPieces as int)
  {
    if size <= 0 || nPieces < 1 then 0
    else if nPieces as int64 > size then size as int32
    else nPieces
  }

  /** plan_n_bounds: inclusive range of piece i; (0, -1) for arguments it cannot serve. */
  method PieceBounds(size: int64, n: int32, i: int32) returns (start: int64, end: int64)
    ensures size <= 0 || n < 1 || i < 0 || i >= n ==> start == 0 && end == -1
    ensures size > 0 && 0 <= i < n ==>
              var p := size as int / n as int;
              && start as int == i as int * p
              && end as int + 1 == if i == n - 1 then size as int else (i as int + 1) * p
  {
    if size <= 0 || n < 1 || i < 0 || i >= n {
      return 0, -1;
    }
    PieceArithmetic(size as int, n as int, i as int);
    var piece := size / n as int64;
    start := i as int64 * piece;
    if i == n - 1 {
      end := size - 1;
    } else {
      end := start + piece - 1;
    }
  }

  /** No product formed by plan_n_bounds exceeds the size. */
  lemma PieceArithmetic(size: int, n: int, i: int)
    requires size > 0 && 0 <= i < n
    ensures 0 <= i * (size / n) && (i + 1) * (size / n) <= size
    ensures (i + 1) * (size / n) == i * (size / n) + size / n
    ensures n * (size / n) == size - size % n
  {
    var p := size / n;
    assert n * p == size - size % n;
    MulMonotone(i + 1, n, p);
    MulMonotone(0, i, p);
  }

  /** plan_chunks_n: equal pieces, the last of which takes the remainder. No width limits. */
  method PlanChunksN(size: int64, nPieces: int32) returns (out: seq<Chunk>)
    ensures |out| == PieceCount(size, nPieces) as int
    ensures nPieces >= 1 ==> Covers(out, size as int)
    ensures forall i :: 0 <= i < |out| - 1 ==> Want(out[i]) == size as int / |out|
    ensures |out| > 0 ==> Want(out[|out| - 1]) == size as int / |out| + size as int % |out|
  {
    out := [];
    var n := PieceCount(size, nPieces);
    if n < 1 {
      return;
    }
    ghost var p := size as int / n as int;
    assert p >= 1 by { PieceNonEmpty(size as int, n as int); }
    var i: int32 := 0;
    while i < n
      invariant 0 <= i <= n && |out| == i as int
      invariant forall k :: 0 <= k < |out| ==> out[k].id == k && out[k].start == k * p
      invariant forall k :: 0 <= k < |out| ==>
                  out[k].end == (if k == n as int - 1 then size as int else (k + 1) * p) - 1
      invariant forall k :: 0 <= k < |out| ==> out[k].start <= out[k].end
      invariant forall k :: 0 < k < |out| ==> out[k].start == out[k - 1].end + 1
      invariant forall k :: 0 <= k < |out| && k < n as int - 1 ==> Want(out[k]) == p
    {
      PieceArithmetic(size as int, n as int, i as int);
      var start, end := PieceBounds(size, n, i);
      out := out + [Chunk(start as int, end as int, i as int)];
      i := i + 1;
    }
    PieceArithmetic(size as int, n as int, n as int - 1);
  }

  lemma PieceNonEmpty(size: int, n: int)
    requires 1 <= n <= size
    ensures size / n >= 1
  {
    assert size == n * (size / n) + size % n;
  }

  const MEBIBYTE: int64 := 0x10_0000

  /** The planning part of run_download: the byte limit, then one of the two planners. */
  method PlanDownload(fileSize: int64, limitBytes: int64, chunkMb: int32, maxConcurrent: int32)
    returns (size: int64, plan: seq<Chunk>)
    requires chunkMb > 0 ==>
               PlanFits(if 0 < limitBytes < fileSize then limitBytes as int else fileSize as int,
                        chunkMb as int * MEBIBYTE as int)
    ensures size == if 0 < limitBytes < fileSize then limitBytes else fileSize
    ensures chunkMb > 0 || maxConcurrent >= 1 ==> Covers(plan, size as int)
    ensures |plan| == if chunkMb > 0 then ChunkCount(size as int, chunkMb as int * MEBIBYTE as int)
                      else PieceCount(size, maxConcurrent) as int
    ensures chunkMb > 0 ==>
              && (forall i :: 0 <= i < |plan| - 1 ==> Want(plan[i]) == 1048576 * chunkMb as int)
              && (forall i :: 0 <= i < |plan| ==> Want(plan[i]) <= 1048576 * chunkMb as int)
    ensures chunkMb <= 0 ==>
              && (forall i :: 0 <= i < |plan| - 1 ==> Want(plan[i]) == size as int / |plan|)
              && (|plan| > 0 ==> Want(plan[|plan| - 1]) == size as int / |plan| + size as int % |plan|)
  {
    size := fileSize;
    if limitBytes > 0 && limitBytes < size {
      size := limitBytes;
    }
    if chunkMb > 0 {
      plan := PlanChunks(size, chunkMb as int64 * MEBIBYTE);
    } else {
      plan := PlanChunksN(size, maxConcurrent);
    }
  }
}
