/**
 Chunk metadata of an upload, in the source's wrapping 64-bit arithmetic
 (`parseUploadStreamSpec` in `agent/server/file_stream.go`, the checks at the head of
 `commitFileUpload` and `uploadChunkCount` in `agent/server/files.go`).
 */
module ChunkGeometry {
  import opened Prelude

  const MAX_INT64 := 0x7FFF_FFFF_FFFF_FFFF
  const TWO_64 := 0x1_0000_0000_0000_0000
  const DEFAULT_CHUNK := 25 * 1024 * 1024
  const MAX_CHUNK := 128 * 1024 * 1024

  type int64 = x: int | -MAX_INT64 - 1 <= x <= MAX_INT64

  /** Two's complement wrap-around of an exact result. */
  function Wrap(x: int): int64 {
    var r := x % TWO_64;
    if r > MAX_INT64 then r - TWO_64 else r
  }

  /** Go's integer division: it truncates toward zero. */
  function Quotient(a: int, b: int): int
    requires b > 0
  {
    if a >= 0 then a / b else -((-a) / b)
  }

  datatype StreamArgs = StreamArgs(path: string, upload: string, offset: int64, index: int64, count: int64,
                                   total: int64, chunk: int64, first: bool)

  datatype Spec = Spec(path: string, upload: string, offset: int64, index: int64, count: int64,
                       total: int64, chunk: int64, expected: int64, first: bool)

  datatype SpecError = NoUploadId | PathNotFile | BadMetadata | BadChunkSize | BadCount | BadOffset | BadLength

  function ChunkOrDefault(chunk: int64): int64 {
    if chunk == 0 then DEFAULT_CHUNK else chunk
  }

  function ParseStreamSpec(a: StreamArgs): Result<Spec, SpecError> {
    var chunk := ChunkOrDefault(a.chunk);
    if a.upload == "" then Failure(NoUploadId)
    else if a.path == "/" || a.path == "." then Failure(PathNotFile)
    else if a.offset < 0 || a.count <= 0 || a.total <= 0 then Failure(BadMetadata)
    else if chunk <= 0 || chunk > MAX_CHUNK then Failure(BadChunkSize)
    else if a.count != Quotient(Wrap(Wrap(a.total + chunk) - 1), chunk) then Failure(BadCount)
    else if a.index < 0 || a.index >= a.count || a.offset != Wrap(a.index * chunk) then Failure(BadOffset)
    else
      var left := Wrap(a.total - a.offset);
      var expected := if left < chunk then left else chunk;
      if expected <= 0 then Failure(BadLength)
      else Success(Spec(a.path, a.upload, a.offset, a.index, a.count, a.total, chunk, expected, a.first))
  }

  /** `uploadChunkCount`, as the commit computes it. */
  function UploadChunkCount(size: int64, chunk: int64): int64 {
    if size <= 0 || chunk <= 0 then 0
    else
      QuotientRange(Wrap(Wrap(size + chunk) - 1), chunk);
      Quotient(Wrap(Wrap(size + chunk) - 1), chunk)
  }

  /** What a commit request must say about its geometry before it looks at any session. */
  predicate CommitGeometryAccepted(total: int64, chunk: int64, count: int64) {
    && total > 0 && count > 0
    && 0 < ChunkOrDefault(chunk) <= MAX_CHUNK
    && count == UploadChunkCount(total, ChunkOrDefault(chunk))
  }

  // ---------- exact geometry ----------

  /** Number of chunks, in unbounded arithmetic. */
  function ChunkCount(total: nat, chunk: nat): nat
    requires chunk > 0
  {
    (total + chunk - 1) / chunk
  }

  function ChunkStart(chunk: nat, i: nat): nat {
    i * chunk
  }

  function ChunkEnd(total: nat, chunk: nat, i: nat): nat {
    if (i + 1) * chunk < total then (i + 1) * chunk else total
  }

  lemma QuotientRange(a: int64, b: int64)
    requires b > 0
    ensures -MAX_INT64 - 1 <= Quotient(a, b) <= MAX_INT64
    ensures a < 0 ==> Quotient(a, b) <= 0
  {
    if a >= 0 {
      DivBounds(a, b);
    } else {
      var m: nat := 0 - a;
      DivBounds(m, b);
    }
  }

  lemma DivBounds(a: nat, b: nat)
    requires b > 0
    ensures 0 <= a / b <= a && a / b * b <= a < a / b * b + b
  {
    assert a == a / b * b + a % b;
    ProductGrows(a / b, b);
  }

  lemma ProductGrows(q: nat, b: nat)
    requires b > 0
    ensures q <= q * b
  {
    assert q * b - q == q * (b - 1);
  }

  /** The wrapped rounding-up either is exact or comes out negative. */
  lemma RoundUpWraps(total: int64, chunk: int64)
    requires total > 0 && 0 < chunk <= MAX_CHUNK
    ensures total + chunk - 1 <= MAX_INT64 ==> Wrap(Wrap(total + chunk) - 1) == total + chunk - 1
    ensures total + chunk - 1 > MAX_INT64 ==> Wrap(Wrap(total + chunk) - 1) < 0
  {
  }

  /** Chunk i of the file: a non-empty range inside it. */
  lemma ChunkRange(total: nat, chunk: nat, i: nat)
    requires total > 0 && chunk > 0 && i < ChunkCount(total, chunk)
    ensures ChunkStart(chunk, i) < ChunkEnd(total, chunk, i) <= total
    ensures ChunkEnd(total, chunk, i) - ChunkStart(chunk, i) <= chunk
  {
    var n := ChunkCount(total, chunk);
    DivBounds(total + chunk - 1, chunk);
    MulMonotone(i + 1, n, chunk);
    Distribute(i, chunk);
  }

  lemma MulMonotone(a: nat, b: nat, c: nat)
    requires a <= b
    ensures a * c <= b * c
  {
    assert b * c - a * c == (b - a) * c;
  }

  lemma Distribute(i: nat, c: nat)
    ensures (i + 1) * c == i * c + c
  {
  }

  /** The chunk that holds position p. */
  lemma ChunkOfPosition(total: nat, chunk: nat, p: nat)
    requires chunk > 0 && p < total
    ensures p / chunk < ChunkCount(total, chunk)
    ensures ChunkStart(chunk, p / chunk) <= p < ChunkEnd(total, chunk, p / chunk)
  {
    var i, n := p / chunk, ChunkCount(total, chunk);
    DivBounds(p, chunk);
    Distribute(i, chunk);
    DivBounds(total + chunk - 1, chunk);
    if n <= i {
      MulMonotone(n, i, chunk);
    }
  }

  /** Different chunks share no position. */
  lemma ChunksDisjoint(total: nat, chunk: nat, i: nat, j: nat, p: nat)
    requires chunk > 0
    requires ChunkStart(chunk, i) <= p < ChunkEnd(total, chunk, i)
    requires ChunkStart(chunk, j) <= p < ChunkEnd(total, chunk, j)
    ensures i == j
  {
    if i < j {
      MulMonotone(i + 1, j, chunk);
    } else if j < i {
      MulMonotone(j + 1, i, chunk);
    }
  }

  /** The chunk ranges partition the file: none is empty, and every position lies in exactly one of them. */
  lemma ChunksPartition(total: nat, chunk: nat, p: nat)
    requires total > 0 && chunk > 0
    ensures forall i: nat :: i < ChunkCount(total, chunk) ==> ChunkStart(chunk, i) < ChunkEnd(total, chunk, i) <= total
    ensures p < total <==> exists i :: 0 <= i < ChunkCount(total, chunk)
                                       && ChunkStart(chunk, i) <= p < ChunkEnd(total, chunk, i)
    ensures forall i: nat, j: nat | ChunkStart(chunk, i) <= p < ChunkEnd(total, chunk, i)
                                    && ChunkStart(chunk, j) <= p < ChunkEnd(total, chunk, j) :: i == j
  {
    forall i: nat | i < ChunkCount(total, chunk) ensures ChunkStart(chunk, i) < ChunkEnd(total, chunk, i) <= total {
      ChunkRange(total, chunk, i);
    }
    if p < total {
      ChunkOfPosition(total, chunk, p);
    }
    forall i, j: nat | ChunkStart(chunk, i) <= p < ChunkEnd(total, chunk, i)
                       && ChunkStart(chunk, j) <= p < ChunkEnd(total, chunk, j)
      ensures i == j
    {
      ChunksDisjoint(total, chunk, i, j, p);
    }
  }

  // ---------- what the checks accept ----------

  /** The metadata describes chunk `index` of a file of `total` bytes, with no overflow anywhere. */
  predicate ExactSpec(a: StreamArgs) {
    var chunk := if a.chunk == 0 then 26_214_400 else a.chunk;
    && a.upload != "" && a.path != "/" && a.path != "."
    && a.total > 0 && 0 < chunk <= 134_217_728
    && a.total + chunk - 1 <= MAX_INT64
    && a.count == ChunkCount(a.total, chunk)
    && 0 <= a.index < a.count
    && a.offset == ChunkStart(chunk, a.index)
  }

  lemma CountTest(total: int64, chunk: int64, count: int64)
    requires total > 0 && 0 < chunk <= MAX_CHUNK && count > 0
    ensures count == Quotient(Wrap(Wrap(total + chunk) - 1), chunk) <==>
            total + chunk - 1 <= MAX_INT64 && count == ChunkCount(total, chunk)
  {
    RoundUpWraps(total, chunk);
    QuotientRange(Wrap(Wrap(total + chunk) - 1), chunk);
  }

  lemma CountPositive(total: nat, chunk: nat)
    requires total > 0 && chunk > 0
    ensures ChunkCount(total, chunk) > 0
  {
    ChunkOfPosition(total, chunk, 0);
  }

  lemma IndexTest(total: int64, chunk: int64, index: int64)
    requires total > 0 && chunk > 0 && 0 <= index < ChunkCount(total, chunk)
    ensures 0 <= ChunkStart(chunk, index) < total && Wrap(index * chunk) == ChunkStart(chunk, index)
    ensures ChunkStart(chunk, index) < ChunkEnd(total, chunk, index)
    ensures var left := Wrap(total - ChunkStart(chunk, index));
            ChunkStart(chunk, index) + (if left < chunk then left else chunk) == ChunkEnd(total, chunk, index)
  {
    ChunkRange(total, chunk, index);
    Distribute(index, chunk);
    MulMonotone(0, index, chunk);
  }

  /** The overflow-prone test accepts exactly the exact geometry, and computes the chunk's true length. */
  lemma ParseAcceptsExactly(a: StreamArgs)
    ensures ParseStreamSpec(a).Success? <==> ExactSpec(a)
    ensures ExactSpec(a) ==>
      var s := ParseStreamSpec(a).value;
      && s == Spec(a.path, a.upload, a.offset, a.index, a.count, a.total, ChunkOrDefault(a.chunk), s.expected, a.first)
      && s.offset + s.expected == ChunkEnd(a.total, ChunkOrDefault(a.chunk), a.index)
  {
    var chunk := ChunkOrDefault(a.chunk);
    if a.total > 0 && 0 < chunk <= MAX_CHUNK && a.count > 0 {
      CountTest(a.total, chunk, a.count);
      if a.total + chunk - 1 <= MAX_INT64 && a.count == ChunkCount(a.total, chunk) && 0 <= a.index < a.count {
        IndexTest(a.total, chunk, a.index);
      }
    }
    if ExactSpec(a) {
      CountPositive(a.total, chunk);
    }
  }

  /** A commit accepts a geometry exactly when streams accept the first chunk of that geometry. */
  lemma CommitAgreesWithStreams(total: int64, chunk: int64, count: int64)
    ensures CommitGeometryAccepted(total, chunk, count) <==>
            ParseStreamSpec(StreamArgs("f", "u", 0, 0, count, total, chunk, false)).Success?
  {
    var c := ChunkOrDefault(chunk);
    ParseAcceptsExactly(StreamArgs("f", "u", 0, 0, count, total, chunk, false));
    if total > 0 && 0 < c <= MAX_CHUNK && count > 0 {
      CountTest(total, c, count);
    }
  }

  /** A commit accepts exactly the true number of chunks, and only when rounding up does not overflow. */
  lemma CommitCountIsExact(total: int64, chunk: int64, count: int64)
    ensures CommitGeometryAccepted(total, chunk, count) <==>
            && total > 0 && 0 < ChunkOrDefault(chunk) <= MAX_CHUNK
            && total + ChunkOrDefault(chunk) - 1 <= MAX_INT64
            && count == ChunkCount(total, ChunkOrDefault(chunk))
  {
    CommitAgreesWithStreams(total, chunk, count);
    ParseAcceptsExactly(StreamArgs("f", "u", 0, 0, count, total, chunk, false));
    if total > 0 && 0 < ChunkOrDefault(chunk) {
      CountPositive(total, ChunkOrDefault(chunk));
    }
  }
}
