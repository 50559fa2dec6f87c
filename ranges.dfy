/**
  Byte ranges and the chunk planner of `TorBoost.start`.

  A range is inclusive at both ends, as in an HTTP `Range: bytes=first-last`
  request (section 14.1.2 of RFC 9110), so a range `(start, end)` holds
  `end - start + 1` bytes and `(n, n - 1)` is the empty range.
 */
module Ranges {
  import opened Wrappers

  /** One byte of a downloaded body or of a file. */
  newtype byte = x: int | 0 <= x < 256

  /** An inclusive byte range `(start, end)`. */
  datatype ByteRange = ByteRange(start: int, end: int)

  /** The size a complete chunk file for `r` must have. */
  function ExpectedSize(r: ByteRange): int
  {
    r.end - r.start + 1
  }

  /** Why `start` gives up before any chunk is queued. */
  datatype StartError =
    | ContentSizeUnset   // `content_size` is None or 0: RuntimeError
    | ZeroChunkSize      // `content_size / 0`: ZeroDivisionError
    | UnboundChunkEnd    // the planning loop never ran: `chunk_end` is unbound

  function Abs(x: int): nat
  {
    if x < 0 then -x else x
  }

  /** `int(a / b)`: the quotient rounded toward zero, as `int()` rounds a float. */
  function TruncDiv(a: int, b: int): (q: int)
    requires b != 0
    ensures 0 <= a && 0 < b ==> q == a / b
    ensures (a < 0) != (b < 0) ==> q <= 0
    ensures (a < 0) == (b < 0) ==> q >= 0
    ensures Abs(q) * Abs(b) <= Abs(a) < Abs(q) * Abs(b) + Abs(b)
  {
    DivNonNegative(Abs(a), Abs(b));
    if (a < 0) == (b < 0) then Abs(a) / Abs(b) else -(Abs(a) / Abs(b))
  }

  lemma DivNonNegative(x: nat, y: int)
    requires y > 0
    ensures x / y >= 0
  {
    var q, r := x / y, x % y;
    assert x == q * y + r && 0 <= r < y;
    if q < 0 {
      MulMonotone(q, -1, y);
    }
  }

  /** The `i`-th full chunk: `(i * chunkSize, i * chunkSize + chunkSize - 1)`. */
  function FullRange(i: int, chunkSize: int): ByteRange
  {
    ByteRange(i * chunkSize, i * chunkSize + chunkSize - 1)
  }

  /**
    What the planning part of `start` computes: `int(content_size / chunk_size)`
    full chunks, then one tail chunk from the last full chunk's end to
    `content_size - 1`, or the error raised on the way.
   */
  function PlanChunks(contentSize: Option<int>, chunkSize: int): (planned: Result<seq<ByteRange>, StartError>)
    ensures planned.Success? ==> contentSize.Some? && |planned.value| >= 2
    ensures planned.Success? ==>
              var p := planned.value;
              p[0].start == 0 && p[|p| - 1].end == contentSize.value - 1 && Contiguous(p)
  {
    if contentSize == None || contentSize == Some(0) then Failure(ContentSizeUnset)
    else if chunkSize == 0 then Failure(ZeroChunkSize)
    else
      var n := TruncDiv(contentSize.value, chunkSize);
      if n <= 0 then Failure(UnboundChunkEnd)
      else
        PlanShape(n, chunkSize, contentSize.value);
        Success(seq(n, i => FullRange(i, chunkSize)) + [ByteRange(n * chunkSize, contentSize.value - 1)])
  }

  /** Full chunks followed by a tail from the last full chunk's end start at 0 and leave no gap. */
  lemma PlanShape(n: int, chunkSize: int, size: int)
    requires n >= 1
    ensures var p := seq(n, i => FullRange(i, chunkSize)) + [ByteRange(n * chunkSize, size - 1)];
      p[0].start == 0 && Contiguous(p)
  {
    var p := seq(n, i => FullRange(i, chunkSize)) + [ByteRange(n * chunkSize, size - 1)];
    forall i | 0 <= i < |p| - 1
      ensures p[i + 1].start == p[i].end + 1
    {
      assert (i + 1) * chunkSize == i * chunkSize + chunkSize;
    }
  }

  /** Each range starts right after the previous one ends. */
  predicate Contiguous(rs: seq<ByteRange>)
  {
    forall i :: 0 <= i < |rs| - 1 ==> rs[i + 1].start == rs[i].end + 1
  }

  /** Every range is a (possibly empty) slice of `[0, size)`. */
  predicate WithinBounds(rs: seq<ByteRange>, size: int)
  {
    forall i :: 0 <= i < |rs| ==> 0 <= rs[i].start <= rs[i].end + 1 <= size
  }

  /** The sum of the expected sizes of `rs`. */
  function TotalLength(rs: seq<ByteRange>): int
  {
    if rs == [] then 0 else TotalLength(rs[..|rs| - 1]) + ExpectedSize(rs[|rs| - 1])
  }

  /** The bytes of `buf` that the ranges `rs` select, in the order of `rs`. */
  function Slices(buf: seq<byte>, rs: seq<ByteRange>): seq<byte>
    requires WithinBounds(rs, |buf|)
  {
    if rs == [] then []
    else
      var r := rs[|rs| - 1];
      Slices(buf, rs[..|rs| - 1]) + buf[r.start..r.end + 1]
  }

  lemma MulMonotone(a: int, b: int, k: nat)
    requires a <= b
    ensures a * k <= b * k
  {
    assert b * k - a * k == (b - a) * k;
  }

  lemma MulStrict(a: int, b: int, k: int)
    requires a < b && 0 < k
    ensures a * k < b * k
  {
    assert b * k - a * k == (b - a) * k;
  }

  /**
    When planning succeeds and when it fails: a missing or zero size and a zero
    chunk size fail first; otherwise planning succeeds exactly when at least one
    full chunk fits, so a content smaller than one chunk (or a negative size)
    fails with an unbound `chunk_end`.
   */
  lemma PlanOutcome(contentSize: Option<int>, chunkSize: int)
    ensures contentSize == None || contentSize == Some(0) ==>
              PlanChunks(contentSize, chunkSize) == Failure(ContentSizeUnset)
    ensures contentSize.Some? && contentSize.value != 0 && chunkSize == 0 ==>
              PlanChunks(contentSize, chunkSize) == Failure(ZeroChunkSize)
    ensures contentSize.Some? && 0 < contentSize.value && 0 < chunkSize ==>
              (PlanChunks(contentSize, chunkSize).Success? <==> chunkSize <= contentSize.value)
    ensures contentSize.Some? && 0 < contentSize.value < chunkSize ==>
              PlanChunks(contentSize, chunkSize) == Failure(UnboundChunkEnd)
    ensures contentSize.Some? && contentSize.value < 0 && 0 < chunkSize ==>
              PlanChunks(contentSize, chunkSize) == Failure(UnboundChunkEnd)
    ensures contentSize.Some? && 0 < contentSize.value && PlanChunks(contentSize, chunkSize).Success? ==>
              0 < chunkSize <= contentSize.value
  {
    if contentSize.Some? && 0 < contentSize.value && chunkSize != 0 {
      var cs, k := contentSize.value, chunkSize;
      if 0 < k <= cs {
        assert cs / k >= 1 by {
          if cs / k < 1 {
            MulMonotone(cs / k, 0, k);
          }
        }
      } else if 0 < k {
        assert cs / k == 0;
      }
    }
  }

  /**
    The shape of a successful plan: `floor(content_size / chunk_size) + 1` ranges,
    range `i` starting at `i * chunk_size`, every range but the last a full chunk,
    the last one running from the last full chunk's end to `content_size - 1`;
    the ranges follow each other without gap or overlap, stay inside
    `[0, content_size)`, and the last one holds `content_size % chunk_size`
    bytes, which is the empty range `(content_size, content_size - 1)` when the
    size is an exact multiple of the chunk size.
   */
  lemma PlanLayout(contentSize: int, chunkSize: int)
    requires 0 < chunkSize <= contentSize
    ensures PlanChunks(Some(contentSize), chunkSize).Success?
    ensures var p := PlanChunks(Some(contentSize), chunkSize).value;
      && |p| == contentSize / chunkSize + 1
      && (forall i :: 0 <= i < |p| ==> p[i].start == i * chunkSize)
      && (forall i :: 0 <= i < |p| - 1 ==> p[i] == FullRange(i, chunkSize))
      && p[|p| - 1] == ByteRange((contentSize / chunkSize) * chunkSize, contentSize - 1)
      && p[0].start == 0 && p[|p| - 1].end == contentSize - 1
      && Contiguous(p)
      && WithinBounds(p, contentSize)
      && ExpectedSize(p[|p| - 1]) == contentSize % chunkSize
      && (contentSize % chunkSize == 0 ==> p[|p| - 1] == ByteRange(contentSize, contentSize - 1))
  {
    PlanOutcome(Some(contentSize), chunkSize);
    var k, n := chunkSize, contentSize / chunkSize;
    var p := PlanChunks(Some(contentSize), chunkSize).value;
    assert p == seq(n, i => FullRange(i, k)) + [ByteRange(n * k, contentSize - 1)];
    var nk := n * k;
    assert nk + contentSize % k == contentSize;
    assert WithinBounds(p, contentSize) by {
      forall i | 0 <= i < |p|
        ensures 0 <= p[i].start <= p[i].end + 1 <= contentSize
      {
        if i < n {
          MulMonotone(0, i, k);
          MulMonotone(i + 1, n, k);
          assert (i + 1) * k == i * k + k;
        } else {
          MulMonotone(0, n, k);
        }
      }
    }
  }

  /** The lengths of a contiguous run add up to the distance it spans. */
  lemma {:induction false} ContiguousTotal(rs: seq<ByteRange>)
    requires |rs| >= 1 && Contiguous(rs)
    ensures TotalLength(rs) == rs[|rs| - 1].end - rs[0].start + 1
  {
    if |rs| > 1 {
      var init := rs[..|rs| - 1];
      assert Contiguous(init) by {
        forall i | 0 <= i < |init| - 1 ensures init[i + 1].start == init[i].end + 1 {
          assert init[i] == rs[i] && init[i + 1] == rs[i + 1];
        }
      }
      ContiguousTotal(init);
    }
  }

  /** The planned chunks add up to exactly `content_size` bytes. */
  lemma PlanTotal(contentSize: int, chunkSize: int)
    requires 0 < chunkSize <= contentSize
    ensures PlanChunks(Some(contentSize), chunkSize).Success?
    ensures TotalLength(PlanChunks(Some(contentSize), chunkSize).value) == contentSize
  {
    PlanLayout(contentSize, chunkSize);
    ContiguousTotal(PlanChunks(Some(contentSize), chunkSize).value);
  }

  /**
    Every byte offset `b` of the content lies in exactly one planned range,
    the one with index `b / chunk_size`.
   */
  lemma PlanCoversByte(contentSize: int, chunkSize: int, b: int)
    requires 0 < chunkSize <= contentSize && 0 <= b < contentSize
    ensures PlanChunks(Some(contentSize), chunkSize).Success?
    ensures var p := PlanChunks(Some(contentSize), chunkSize).value;
      && b / chunkSize < |p|
      && p[b / chunkSize].start <= b <= p[b / chunkSize].end
      && forall j :: 0 <= j < |p| && p[j].start <= b <= p[j].end ==> j == b / chunkSize
  {
    var k := chunkSize;
    FloorMonotone(b, contentSize, k);
    PlanEntry(contentSize, k, b / k);
    FloorBounds(b, k);
    var p := PlanChunks(Some(contentSize), chunkSize).value;
    forall j | 0 <= j < |p| && p[j].start <= b <= p[j].end
      ensures j == b / k
    {
      PlanEntry(contentSize, k, j);
      OnlyRangeOf(contentSize, k, b, j);
    }
  }

  /** Floor division by a positive number is monotone. */
  lemma FloorMonotone(a: int, b: int, k: int)
    requires 0 <= a <= b && 0 < k
    ensures a / k <= b / k
  {
    FloorBounds(a, k);
    FloorBounds(b, k);
    if b / k < a / k {
      MulMonotone(b / k + 1, a / k, k);
    }
  }

  /** A byte that range `j` of the plan covers has `j == b / chunkSize`. */
  lemma OnlyRangeOf(contentSize: int, chunkSize: int, b: int, j: int)
    requires 0 < chunkSize <= contentSize && 0 <= b < contentSize && 0 <= j <= contentSize / chunkSize
    requires j * chunkSize <= b
    requires b < if j < contentSize / chunkSize then j * chunkSize + chunkSize else contentSize
    ensures j == b / chunkSize
  {
    FloorBounds(contentSize, chunkSize);
    FloorUnique(j, b, chunkSize);
  }

  /** Range `j` of a plan starts at `j * chunkSize` and ends one chunk later, or at the content's end. */
  lemma PlanEntry(contentSize: int, chunkSize: int, j: int)
    requires 0 < chunkSize <= contentSize
    requires 0 <= j <= contentSize / chunkSize
    ensures PlanChunks(Some(contentSize), chunkSize).Success?
    ensures var p := PlanChunks(Some(contentSize), chunkSize).value;
      && |p| == contentSize / chunkSize + 1
      && p[j].start == j * chunkSize
      && p[j].end + 1 == if j < contentSize / chunkSize then j * chunkSize + chunkSize else contentSize
  {
    PlanOutcome(Some(contentSize), chunkSize);
  }

  /** `(b / k) * k` is the multiple of `k` at or just below `b`. */
  lemma FloorBounds(b: int, k: int)
    requires 0 <= b && 0 < k
    ensures 0 <= b / k && (b / k) * k <= b < (b / k) * k + k
  {
    DivNonNegative(b, k);
  }

  /** The only `j` with `j * k <= b < j * k + k` is `b / k`. */
  lemma FloorUnique(j: int, b: int, k: int)
    requires 0 <= b && 0 < k && j * k <= b < j * k + k
    ensures j == b / k
  {
    FloorBounds(b, k);
    var q := b / k;
    if j < q {
      MulMonotone(j + 1, q, k);
    } else if q < j {
      MulMonotone(q + 1, j, k);
    }
  }

  /**
    Cutting a buffer along a contiguous run of in-bounds ranges and putting the
    pieces back together in order gives the part of the buffer the run spans.
   */
  lemma {:induction false} SlicesReassemble(buf: seq<byte>, rs: seq<ByteRange>)
    requires |rs| >= 1 && Contiguous(rs) && WithinBounds(rs, |buf|)
    ensures rs[0].start <= rs[|rs| - 1].end + 1
    ensures Slices(buf, rs) == buf[rs[0].start..rs[|rs| - 1].end + 1]
  {
    if |rs| > 1 {
      var init := rs[..|rs| - 1];
      assert Contiguous(init) by {
        forall i | 0 <= i < |init| - 1 ensures init[i + 1].start == init[i].end + 1 {
          assert init[i] == rs[i] && init[i + 1] == rs[i + 1];
        }
      }
      SlicesReassemble(buf, init);
      var a, m, e := rs[0].start, rs[|rs| - 2].end + 1, rs[|rs| - 1].end + 1;
      assert buf[a..m] + buf[m..e] == buf[a..e];
    }
  }

  /** Slicing any buffer by the plan for its own length and reassembling gives the buffer back. */
  lemma PlanReassemble(buf: seq<byte>, chunkSize: int)
    requires 0 < chunkSize <= |buf|
    ensures PlanChunks(Some(|buf|), chunkSize).Success?
    ensures WithinBounds(PlanChunks(Some(|buf|), chunkSize).value, |buf|)
    ensures Slices(buf, PlanChunks(Some(|buf|), chunkSize).value) == buf
  {
    PlanLayout(|buf|, chunkSize);
    SlicesReassemble(buf, PlanChunks(Some(|buf|), chunkSize).value);
  }
}
