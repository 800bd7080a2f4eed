/** download/file.go's planChunks: the spans a parallel download is cut into. */
module ChunkPlan {
  import opened Common

  /** An inclusive byte range. */
  datatype Span = Span(start: int, end: int)
  {
    predicate Holds(pos: int) {
      start <= pos <= end
    }
  }

  predicate Covered(spans: seq<Span>, pos: int) {
    exists k :: 0 <= k < |spans| && spans[k].Holds(pos)
  }

  /** No two spans share a byte, together they hold the bytes [0, total), and none is
      empty or longer than a chunk. */
  predicate Tiles(spans: seq<Span>, total: int, chunkSize: int) {
    && (forall k :: 0 <= k < |spans| ==>
          0 <= spans[k].start <= spans[k].end < total && spans[k].end - spans[k].start < chunkSize)
    && (forall pos :: 0 <= pos < total ==> Covered(spans, pos))
    && (forall j, k :: 0 <= j < k < |spans| ==> spans[j].end < spans[k].start)
  }

  /** The k-th span of the plan. */
  function Nth(k: nat, total: int, chunkSize: int): Span {
    Span(k * chunkSize, Min(k * chunkSize + chunkSize, total) - 1)
  }

  lemma {:induction false} Consecutive(j: nat, k: nat, chunkSize: nat)
    requires j < k
    ensures j * chunkSize + chunkSize <= k * chunkSize
  {
    assert (j + 1) * chunkSize <= k * chunkSize;
  }

  lemma {:induction false} NthHolds(pos: nat, count: nat, total: int, chunkSize: int)
    requires chunkSize > 0 && pos < total <= count * chunkSize
    ensures pos / chunkSize < count && Nth(pos / chunkSize, total, chunkSize).Holds(pos)
  {
  }

  lemma {:induction false} NthsAreApart(spans: seq<Span>, total: int, chunkSize: int, j: nat, k: nat)
    requires chunkSize > 0 && j < k < |spans|
    requires spans[j] == Nth(j, total, chunkSize) && spans[k] == Nth(k, total, chunkSize)
    ensures spans[j].end < spans[k].start
  {
    Consecutive(j, k, chunkSize);
  }

  lemma {:induction false} NthsTile(spans: seq<Span>, total: int, chunkSize: int)
    requires chunkSize > 0
    requires forall k :: 0 <= k < |spans| ==> spans[k] == Nth(k, total, chunkSize) && 0 <= spans[k].start < total
    requires total <= |spans| * chunkSize
    ensures Tiles(spans, total, chunkSize)
  {
    forall pos | 0 <= pos < total
      ensures Covered(spans, pos)
    {
      NthHolds(pos, |spans|, total, chunkSize);
      assert spans[pos / chunkSize].Holds(pos);
    }
    forall j, k | 0 <= j < k < |spans|
      ensures spans[j].end < spans[k].start
    {
      NthsAreApart(spans, total, chunkSize, j, k);
    }
  }

  /** planChunks. */
  method PlanChunks(total: int, chunkSize: int) returns (spans: seq<Span>)
    requires chunkSize > 0
    ensures Tiles(spans, total, chunkSize)
    ensures spans == [] <==> total <= 0
    // all spans but the last are full
    ensures forall k :: 0 <= k < |spans| - 1 ==> spans[k].end - spans[k].start + 1 == chunkSize
  {
    spans := [];
    var start := 0;
    while start < total
      invariant 0 <= start == |spans| * chunkSize
      invariant forall k :: 0 <= k < |spans| ==> spans[k] == Nth(k, total, chunkSize) && 0 <= spans[k].start < total
      invariant spans == [] ==> start == 0
      invariant spans != [] ==> 0 < total
      decreases total - start
    {
      var end := start + chunkSize - 1;
      if end > total - 1 {
        end := total - 1;
      }
      assert (|spans| + 1) * chunkSize == start + chunkSize;
      spans := spans + [Span(start, end)];
      start := start + chunkSize;
    }
    NthsTile(spans, total, chunkSize);
    forall k | 0 <= k < |spans| - 1
      ensures spans[k].end - spans[k].start + 1 == chunkSize
    {
      Consecutive(k, k + 1, chunkSize);
      assert spans[k + 1].start < total;
    }
  }
}
