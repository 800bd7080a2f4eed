/** download/ranged.go: random access to a Source through aligned blocks held in a
    small cache. */
module RangeReader {
  import opened Common
  import opened Fetching
  import opened Ladder

  const DEFAULT_RANGE_BLOCK: nat := 262144
  const RANGE_BLOCKS_HELD: nat := 16

  datatype ReadEnd = Full | EndOfFile | Failed(err: Error) | NegativeOffset

  /** What reading a flat file of these bytes gives: how many bytes, and whether the end
      of the file was reached. */
  function FlatCount(size: nat, plen: nat, off: nat): (n: nat)
    ensures n <= plen && (off <= size ==> off + n <= size)
  {
    if off >= size then 0 else Min(plen, size - off)
  }

  predicate FlatEof(size: nat, plen: nat, off: nat) {
    off + FlatCount(size, plen, off) >= size
  }

  predicate NoDuplicates(s: seq<int>) {
    forall i, j :: 0 <= i < j < |s| ==> s[i] != s[j]
  }

  /** A buffer that was filled up to n, and now up to n + m. */
  lemma {:induction false} ReadOn(now: seq<byte>, before: seq<byte>, was: seq<byte>, resource: seq<byte>, off: nat, n: nat, m: nat)
    requires n + m <= |now| == |before| == |was| && off + n + m <= |resource|
    requires now[..n] == before[..n] == resource[off..off + n] && before[n..] == was[n..]
    requires now[n..n + m] == resource[off + n..off + n + m] && now[n + m..] == before[n + m..]
    ensures now[..n + m] == resource[off..off + n + m] && now[n + m..] == was[n + m..]
  {
    assert now[..n + m] == now[..n] + now[n..n + m];
    assert before[n + m..] == before[n..][m..] && was[n + m..] == was[n..][m..];
  }

  lemma {:induction false} SliceOfSlice(s: seq<byte>, a: nat, b: nat, start: nat, m: nat)
    requires a <= b <= |s| && start + m <= b - a
    ensures s[a..b][start..start + m] == s[a + start..a + start + m]
  {
    var x, y := s[a..b][start..start + m], s[a + start..a + start + m];
    assert forall k :: 0 <= k < m ==> x[k] == y[k];
  }

  lemma {:induction false} BlockHolds(pos: nat, block: nat)
    requires block > 0
    ensures var idx := pos / block;
            0 <= idx && 0 <= idx * block <= pos < idx * block + block
  {
  }

  lemma {:induction false} BlocksApart(i: int, j: int, block: nat)
    requires i < j
    ensures i * block + block <= j * block
    decreases j - i
  {
    if i + 1 < j {
      BlocksApart(i, j - 1, block);
    }
  }

  lemma {:induction false} QuotientIs(pos: nat, block: nat, idx: int)
    requires block > 0 && idx * block <= pos < idx * block + block
    ensures pos / block == idx
  {
    var at := pos / block;
    BlockHolds(pos, block);
    if at < idx {
      BlocksApart(at, idx, block);
    } else if idx < at {
      BlocksApart(idx, at, block);
    }
  }

  lemma {:induction false} OneMoreRound(rounds: nat, want: nat)
    ensures (rounds + 1) * want == rounds * want + want
  {
  }

  lemma {:induction false} RoundsWithin(rounds: nat, limit: nat, want: nat, block: nat)
    requires rounds <= limit && want <= block
    ensures rounds * want <= limit * want <= limit * block
  {
  }

  // ---------- what was taken off the wire ----------

  /** A request of [start, end] whose reply opened. */
  datatype Taken = Taken(x: Try, start: int, end: int)

  /** The bytes it brought, at most those asked for. */
  function Brought(world: World, k: Taken): nat {
    var r := Outcome(world, k.x, k.start, k.end);
    if r.Failure? then 0 else Max(0, Min(k.end - k.start + 1, |r.body.data|))
  }

  function BroughtByAll(world: World, taken: seq<Taken>): nat {
    if taken == [] then 0 else BroughtByAll(world, taken[..|taken| - 1]) + Brought(world, taken[|taken| - 1])
  }

  /** Each opened, one after the other. */
  ghost predicate AllOpened(world: World, taken: seq<Taken>, clock: nat) {
    && (forall k :: 0 <= k < |taken| ==> taken[k].x.t <= clock && Outcome(world, taken[k].x, taken[k].start, taken[k].end).Opened?)
    && (forall j, k :: 0 <= j < k < |taken| ==> taken[j].x.t < taken[k].x.t)
  }

  /** The counters are those of these requests. */
  ghost predicate Counted(world: World, taken: seq<Taken>, requests: nat, fetched: nat, clock: nat) {
    requests == |taken| && fetched == BroughtByAll(world, taken) && AllOpened(world, taken, clock)
  }

  lemma {:induction false} CountedLater(world: World, taken: seq<Taken>, requests: nat, fetched: nat, clock: nat, clock': nat)
    requires Counted(world, taken, requests, fetched, clock) && clock <= clock'
    ensures Counted(world, taken, requests, fetched, clock')
  {
    hide Outcome, BroughtByAll;
  }

  lemma {:induction false} OneMoreTaken(world: World, taken: seq<Taken>, requests: nat, fetched: nat, k: Taken, before: nat, clock: nat)
    requires Counted(world, taken, requests, fetched, before) && before < k.x.t <= clock
    requires Outcome(world, k.x, k.start, k.end).Opened?
    ensures Counted(world, taken + [k], requests + 1, fetched + Brought(world, k), clock)
  {
    hide Outcome, Brought;
    assert (taken + [k])[..|taken|] == taken;
  }

  /** These requests were added, each of [start, end]. */
  ghost predicate Adds(was: seq<Taken>, now: seq<Taken>, tries: seq<Try>, start: int, end: int) {
    |now| == |was| + |tries| && was <= now
    && forall k :: 0 <= k < |tries| ==> now[|was| + k] == Taken(tries[k], start, end)
  }

  lemma {:induction false} AddsLast(was: seq<Taken>, now: seq<Taken>, tries: seq<Try>, start: int, end: int)
    requires Adds(was, now, tries, start, end)
    ensures was <= now
    ensures tries != [] ==> now != [] && now[|now| - 1] == Taken(tries[|tries| - 1], start, end)
  {
    if tries != [] {
      assert now[|was| + (|tries| - 1)] == Taken(tries[|tries| - 1], start, end);
    }
  }

  // ---------- why a read may fail ----------

  /** Every one of these requests was answered with less than was asked for. */
  ghost predicate ShortEachTime(world: World, tries: seq<Try>, start: int, end: int, clock: nat) {
    && (forall j, k :: 0 <= j < k < |tries| ==> tries[j].t < tries[k].t)
    && (forall k :: 0 <= k < |tries| ==> tries[k].t <= clock && CameShort(world, tries[k], start, end))
  }

  predicate CameShort(world: World, x: Try, start: int, end: int) {
    var r := Outcome(world, x, start, end);
    r.Opened? && |r.body.data| < end - start + 1
  }

  /** What a request for [start, end] may have failed with by now, the shared source being as
      it is: the climb was given up, the body was short on every try, or the caller canceled. */
  ghost predicate FetchFails(d: Downloader, delivered: nat, clock: nat, start: int, end: int, e: Error) {
    || GaveUp(d.world, d.shared.policy, d.maxChunkRetries, delivered, start, end, e, clock)
    || (e == Canceled && d.world.Canceled(clock))
    || (e == Incomplete && exists tries :: |tries| == d.maxChunkRetries + 1 && ShortEachTime(d.world, tries, start, end, clock))
  }

  lemma {:induction false} FetchFailsStays(d: Downloader, delivered: nat, delivered': nat, clock: nat, clock': nat, start: int, end: int, e: Error)
    requires FetchFails(d, delivered, clock, start, end, e) && clock <= clock'
    requires delivered <= delivered'
    ensures FetchFails(d, delivered', clock', start, end, e)
  {
    if GaveUp(d.world, d.shared.policy, d.maxChunkRetries, delivered, start, end, e, clock) {
      GaveUpStays(d.world, d.shared.policy, d.maxChunkRetries, delivered, delivered', start, end, e, clock, clock');
    } else if e == Incomplete {
      var tries :| |tries| == d.maxChunkRetries + 1 && ShortEachTime(d.world, tries, start, end, clock);
      assert ShortEachTime(d.world, tries, start, end, clock');
    }
  }

  /** What a block read is told of it: an origin that ignores ranges cannot be read so. */
  function Told(e: Error): Error {
    if e.Ignored? then Unsupported else e
  }

  class Ranged {
    const d: Downloader
    const block: nat
    const budget: int
    var blocks: map<int, seq<byte>>
    var order: seq<int>
    var err: Option<Error>
    var requests: nat
    var fetched: nat
    ghost var taken: seq<Taken>          // every request that opened, in order

    function Size(): nat {
      |d.world.resource|
    }

    /** The bytes of block idx, clamped to the resource. */
    function Slice(idx: int): seq<byte>
      requires 0 <= idx && 0 <= idx * block < Size()
    {
      d.world.resource[idx * block..Min(idx * block + block, Size())]
    }

    ghost predicate CacheOk()
      reads this
    {
      && NoDuplicates(order) && |order| <= RANGE_BLOCKS_HELD
      && (forall idx :: idx in blocks <==> idx in order)
      && (forall idx :: idx in blocks ==> 0 <= idx && 0 <= idx * block < Size() && blocks[idx] == Slice(idx))
    }

    /** The last byte of block idx. */
    function BlockEnd(idx: int): int {
      Min(idx * block + block, Size()) - 1
    }

    /** What asking for block idx may fail with. */
    ghost predicate WireFails(delivered: nat, clock: nat, idx: int, e: Error) {
      exists err :: FetchFails(d, delivered, clock, idx * block, BlockEnd(idx), err) && e == Told(err)
    }

    /** What a read of it may fail with. */
    ghost predicate BlockFails(delivered: nat, clock: nat, bytes: nat, idx: int, e: Error) {
      (e == OverBudget && 0 < budget <= bytes) || WireFails(delivered, clock, idx, e)
    }

    lemma {:induction false} BlockFailsStays(delivered: nat, delivered': nat, clock: nat, clock': nat, bytes: nat, bytes': nat, idx: int, e: Error)
      requires BlockFails(delivered, clock, bytes, idx, e) && clock <= clock' && bytes <= bytes'
      requires delivered <= delivered'
      ensures BlockFails(delivered', clock', bytes', idx, e)
    {
      if !(e == OverBudget && 0 < budget <= bytes) {
        var err :| FetchFails(d, delivered, clock, idx * block, BlockEnd(idx), err) && e == Told(err);
        FetchFailsStays(d, delivered, delivered', clock, clock', idx * block, BlockEnd(idx), err);
      }
    }

    /** Some block of the resource could not be read, with this error. */
    ghost predicate SomeBlockFails(delivered: nat, clock: nat, bytes: nat, e: Error) {
      exists idx :: 0 <= idx && 0 <= idx * block < Size() && BlockFails(delivered, clock, bytes, idx, e)
    }

    /** What has been remembered as an error was one. */
    ghost predicate ErrOk()
      reads this`err, this`fetched, d`clock, d.shared
    {
      err.Some? ==> SomeBlockFails(d.shared.delivered, d.clock, fetched, err.value)
    }

    /** The counters say what came off the wire. */
    ghost predicate Metered()
      reads this`requests, this`fetched, this`taken, d`clock
    {
      Counted(d.world, taken, requests, fetched, d.clock)
    }

    ghost predicate Valid()
      reads this, d`clock, d.shared
    {
      && block > 0
      && d.shared.Ok() && d.world.Truthful()
      && CacheOk() && ErrOk() && Metered()
      && (budget > 0 ==> fetched < budget + (d.maxChunkRetries + 1) * block)
    }

    constructor (d: Downloader, block: nat, budget: int)
      requires block > 0 && d.shared.Ok() && d.world.Truthful()
      ensures Valid() && this.d == d && this.block == block && this.budget == budget
      ensures err.None? && blocks == map[] && taken == [] && fetched == 0 && requests == 0
    {
      this.d, this.block, this.budget := d, block, budget;
      blocks, order, err, requests, fetched, taken := map[], [], None, 0, 0, [];
      new;
      assert (d.maxChunkRetries + 1) * block >= 0;
    }

    /** One request of [start, end] and what it brought, at most the bytes asked for. */
    method FetchOnce(start: int, end: int) returns (got: seq<byte>, e: Option<Error>, ghost x: Try)
      requires d.shared.Ok() && d.world.Truthful() && Metered()
      requires 0 <= start <= end < Size()
      modifies this`requests, this`fetched, this`taken, d`clock, d.shared
      ensures d.shared.Ok() && old(d.shared.delivered) <= d.shared.delivered && old(d.clock) <= d.clock && Metered()
      ensures e.None? ==>
                && got <= d.world.resource[start..end + 1] && old(d.clock) < x.t <= d.clock
                && taken == old(taken) + [Taken(x, start, end)] && fetched == old(fetched) + |got|
                && old(d.shared.delivered) + |got| <= d.shared.delivered
                && |got| == Brought(d.world, Taken(x, start, end)) && (|got| <= end - start ==> CameShort(d.world, x, start, end))
      ensures e.Some? ==> taken == old(taken) && fetched == old(fetched) && requests == old(requests) && e.value != Incomplete
      ensures e.Some? ==> GaveUp(d.world, d.shared.policy, d.maxChunkRetries, d.shared.delivered, start, end, e.value, d.clock)
    {
      hide Counted, Asked, AllRetried, AllButLast, Fetch;
      var r, attempts, tries := d.FetchRetrying(start, end);
      if r.Failure? {
        CountedLater(d.world, taken, requests, fetched, old(d.clock), d.clock);
        HasGivenUp(d.world, d.shared.policy, d.maxChunkRetries, d.Now(), tries, start, end, old(d.clock), attempts, r.err);
        return [], Some(r.err), Try(0, d.shared.src, 0, None);
      }
      x := tries[|tries| - 1];
      LastTried(d.world, d.shared.policy, d.Now(), tries, start, end, old(d.clock), attempts);
      var n := Min(end - start + 1, |r.body.data|);
      OneMoreTaken(d.world, taken, requests, fetched, Taken(x, start, end), old(d.clock), d.clock);
      requests := requests + 1;
      fetched := fetched + n;
      taken := taken + [Taken(x, start, end)];
      d.shared.NoteDelivered(n);
      return r.body.data[..n], None, x;
    }

    /** fetchBlock: short bodies are retried, a persistently short one is an error. */
    method FetchBlock(start: int, end: int) returns (buf: seq<byte>, e: Option<Error>, ghost tries: seq<Try>)
      requires d.shared.Ok() && d.world.Truthful() && Metered()
      requires 0 <= start <= end < Size()
      modifies this`requests, this`fetched, this`taken, d`clock, d.shared
      ensures d.shared.Ok() && old(d.shared.delivered) <= d.shared.delivered && old(d.clock) <= d.clock && Metered()
      ensures e.None? ==> buf == d.world.resource[start..end + 1]
      // every request that opened is counted, and what it brought: all were short but the one
      // that brought the block
      ensures Adds(old(taken), taken, tries, start, end) && |tries| <= d.maxChunkRetries + 1
      ensures e.None? ==> tries != [] && Brought(d.world, taken[|taken| - 1]) == |buf|
      ensures e.None? ==> old(fetched) + |buf| <= fetched
      ensures old(d.shared.delivered) + (fetched - old(fetched)) <= d.shared.delivered
      ensures old(fetched) <= fetched <= old(fetched) + (d.maxChunkRetries + 1) * (end - start + 1)
      // a failure has a reason
      ensures e.Some? ==> FetchFails(d, d.shared.delivered, d.clock, start, end, e.value)
      ensures e == Some(Incomplete) ==> |tries| == d.maxChunkRetries + 1 && ShortEachTime(d.world, tries, start, end, d.clock)
    {
      hide GaveUp, CameShort, Outcome, Counted, Brought;
      var want := end - start + 1;
      var attempt := 0;
      tries := [];
      while true
        invariant d.shared.Ok() && attempt <= d.maxChunkRetries
        invariant old(d.shared.delivered) + (fetched - old(fetched)) <= d.shared.delivered && old(d.clock) <= d.clock && Metered()
        invariant old(fetched) <= fetched <= old(fetched) + attempt * want
        invariant Adds(old(taken), taken, tries, start, end)
        invariant |tries| == attempt && ShortEachTime(d.world, tries, start, end, d.clock)
        decreases d.maxChunkRetries - attempt
      {
        OneMoreRound(attempt, want);
        RoundsWithin(attempt + 1, d.maxChunkRetries + 1, want, want);
        ghost var x;
        buf, e, x := FetchOnce(start, end);
        if e.Some? {
          return;
        }
        tries := tries + [x];
        if |buf| == want {
          return;
        }
        if d.world.Canceled(d.clock) {
          return [], Some(Canceled), tries;
        }
        if attempt >= d.maxChunkRetries {
          return [], Some(Incomplete), tries;
        }
        CountedLater(d.world, taken, requests, fetched, d.clock, d.clock + 1);
        d.Tick();
        if d.world.Canceled(d.clock) {
          return [], Some(Canceled), tries;
        }
        attempt := attempt + 1;
      }
    }

    /** Remembers a fetched block, letting the oldest go when too many are held. */
    method Hold(idx: int, blk: seq<byte>)
      requires CacheOk() && block > 0 && idx !in blocks
      requires 0 <= idx && 0 <= idx * block < Size() && blk == Slice(idx)
      modifies this`blocks, this`order
      ensures CacheOk()
      ensures order == (if |old(order)| < RANGE_BLOCKS_HELD then old(order) else old(order)[1..]) + [idx]
    {
      ghost var was := order;
      blocks := blocks[idx := blk];
      order := order + [idx];
      while |order| > RANGE_BLOCKS_HELD
        invariant NoDuplicates(order)
        invariant order == was + [idx] || (|was| == RANGE_BLOCKS_HELD && order == was[1..] + [idx])
        invariant forall k :: k in blocks <==> k in order
        invariant forall k :: k in blocks ==> 0 <= k && 0 <= k * block < Size() && blocks[k] == Slice(k)
      {
        ghost var before := order;
        blocks := blocks - {order[0]};
        order := order[1..];
        assert before == [before[0]] + order;
        assert order == was[1..] + [idx];
      }
    }

    /** blockAt: block idx, from the cache or the wire. */
    method BlockAt(idx: int) returns (blk: seq<byte>, e: Option<Error>)
      requires Valid() && 0 <= idx && 0 <= idx * block < Size()
      modifies this`blocks, this`order, this`err, this`requests, this`fetched, this`taken, d`clock, d.shared
      ensures Valid()
      ensures e.None? ==> blk == Slice(idx) && idx in blocks && err == old(err)
      ensures old(fetched) <= fetched && old(taken) <= taken
      // a held block costs nothing
      ensures idx in old(blocks) ==> e.None? && taken == old(taken) && fetched == old(fetched) && blocks == old(blocks)
      // any other comes off the wire, and counts
      ensures idx !in old(blocks) && e.None? ==> old(fetched) + |blk| <= fetched && BroughtLast(idx)
      // with the budget taken nothing more comes off the wire
      ensures 0 < budget <= old(fetched) ==>
                && taken == old(taken) && fetched == old(fetched) && blocks == old(blocks)
                && (idx !in blocks ==> e == Some(OverBudget))
      // a failure has a reason, and sticks unless it is this view's cancellation
      ensures e.Some? ==>
                if 0 < budget <= old(fetched) then e == Some(OverBudget) else WireFails(d.shared.delivered, d.clock, idx, e.value)
      ensures e.Some? ==> err == e || (d.world.Canceled(d.clock) && err == old(err))
      ensures e.Some? ==> e.value != Ignored
    {
      hide FetchFails, Counted, Brought, ShortEachTime, Adds;
      if idx in blocks {
        return blocks[idx], None;
      }
      if budget > 0 && fetched >= budget {
        err := Some(OverBudget);
        assert BlockFails(d.shared.delivered, d.clock, fetched, idx, OverBudget);
        return [], err;
      }
      var start := idx * block;
      var end := BlockEnd(idx);
      RoundsWithin(d.maxChunkRetries + 1, d.maxChunkRetries + 1, end - start + 1, block);
      ghost var tries;
      blk, e, tries := FetchBlock(start, end);
      AddsLast(old(taken), taken, tries, start, end);
      ErrStays(old(d.shared.delivered), old(d.clock), old(fetched));
      if e.Some? {
        if e.value.Ignored? {
          e := Some(Unsupported);
        }
        assert WireFails(d.shared.delivered, d.clock, idx, e.value);
        assert BlockFails(d.shared.delivered, d.clock, fetched, idx, e.value);
        if !d.world.Canceled(d.clock) {
          err := e;
        }
        return [], e;
      }
      Hold(idx, blk);
    }

    /** The last request that opened brought the whole of block idx. */
    ghost predicate BroughtLast(idx: int)
      requires 0 <= idx && 0 <= idx * block < Size()
      reads this`taken
    {
      taken != [] && var last := taken[|taken| - 1];
        last.start == idx * block && last.end == BlockEnd(idx) && Brought(d.world, last) == |Slice(idx)|
    }

    lemma {:induction false} ErrStays(delivered: nat, clock: nat, bytes: nat)
      requires err.Some? ==> SomeBlockFails(delivered, clock, bytes, err.value)
      requires delivered <= d.shared.delivered && clock <= d.clock && bytes <= fetched
      ensures ErrOk()
    {
      if err.Some? {
        var idx :| 0 <= idx && 0 <= idx * block < Size() && BlockFails(delivered, clock, bytes, idx, err.value);
        BlockFailsStays(delivered, d.shared.delivered, clock, d.clock, bytes, fetched, idx, err.value);
      }
    }

    /** The block a position is in. */
    function BlockOf(pos: nat): int
      requires block > 0
    {
      pos / block
    }

    /** These m bytes are of blocks that are held. */
    ghost predicate HeldFrom(at: nat, m: nat)
      requires block > 0
      reads this`blocks
    {
      forall pos :: at <= pos < at + m ==> BlockOf(pos) in blocks
    }

    lemma {:induction false} SameBlock(at: nat, m: nat, idx: int)
      requires block > 0 && 0 <= idx && idx * block <= at && at + m <= idx * block + block && idx in blocks
      ensures HeldFrom(at, m)
    {
      forall pos | at <= pos < at + m
        ensures BlockOf(pos) == idx
      {
        QuotientIs(pos, block, idx);
      }
    }

    /** One turn of ReadAt's loop: the bytes of p from n on, as far as one block goes. */
    method CopyBlock(p: array<byte>, off: nat, n: nat) returns (m: nat, e: Option<Error>)
      requires Valid() && n < p.Length && off + n < Size()
      modifies p, this`blocks, this`order, this`err, this`requests, this`fetched, this`taken, d`clock, d.shared
      ensures Valid()
      ensures e.None? ==> 0 < m <= p.Length - n && off + n + m <= Size()
      ensures e.None? ==> p[n..n + m] == d.world.resource[off + n..off + n + m] && err == old(err)
      ensures e.Some? ==> m == 0 && SomeBlockFails(d.shared.delivered, d.clock, fetched, e.value)
      ensures p[..n] == old(p[..n]) && p[n + m..] == old(p[..])[n + m..]
      ensures e.Some? ==> err == e || (d.world.Canceled(d.clock) && err == old(err))
      ensures old(fetched) <= fetched && old(taken) <= taken
      ensures 0 < budget <= old(fetched) ==>
                && taken == old(taken) && fetched == old(fetched) && blocks == old(blocks)
                && if BlockOf(off + n) in blocks then HeldFrom(off + n, m) else e == Some(OverBudget)
    {
      hide Ranged.WireFails, Ranged.CacheOk, Ranged.ErrOk, Ranged.Metered, Ranged.BroughtLast;
      var pos := off + n;
      var idx := pos / block;
      BlockHolds(pos, block);
      var blk;
      blk, e := BlockAt(idx);
      if e.Some? {
        assert BlockFails(d.shared.delivered, d.clock, fetched, idx, e.value);
        return 0, e;
      }
      var start := pos - idx * block;
      m := Min(p.Length - n, |blk| - start);
      var piece := blk[start..start + m];
      SliceOfSlice(d.world.resource, idx * block, BlockEnd(idx) + 1, start, m);
      assert piece == d.world.resource[pos..pos + m];
      SameBlock(pos, m, idx);
      forall k | 0 <= k < m {
        p[n + k] := piece[k];
      }
    }

    /** ReadAt keeps io.ReaderAt's contract: it reads what the flat resource holds. */
    method ReadAt(p: array<byte>, off: int) returns (n: nat, end: ReadEnd)
      requires Valid()
      modifies p, this`blocks, this`order, this`err, this`requests, this`fetched, this`taken, d`clock, d.shared
      ensures Valid()
      ensures n <= p.Length && p[n..] == old(p[..])[n..]
      ensures end.NegativeOffset? <==> off < 0
      ensures off < 0 ==> n == 0
      // whatever happens, the bytes handed over are the resource's
      ensures off >= 0 && n > 0 ==> off + n <= Size() && p[..n] == d.world.resource[off..off + n]
      // a read that does not fail has the count and the end of file of a flat read
      ensures end.Full? || end.EndOfFile? ==>
                n == FlatCount(Size(), p.Length, off) && (end.EndOfFile? <==> FlatEof(Size(), p.Length, off))
      // a failure has a reason; a terminal one is remembered and repeated
      ensures end.Failed? ==>
                (end.err == Canceled && d.world.Canceled(d.clock)) || SomeBlockFails(d.shared.delivered, d.clock, fetched, end.err)
      ensures end.Failed? ==> err == Some(end.err) || d.world.Canceled(d.clock)
      ensures old(err).Some? && off >= 0 && p.Length > 0 && off < Size() && !old(d.world.Canceled(d.clock)) ==>
                n == 0 && end == Failed(old(err).value) && err == old(err)
      // a canceled read fails whatever is held
      ensures off >= 0 && p.Length > 0 && off < Size() && old(d.world.Canceled(d.clock)) ==> n == 0 && end == Failed(Canceled)
      // with the budget taken only what is held can be read
      ensures old(fetched) <= fetched && old(taken) <= taken
      ensures off >= 0 && 0 < budget <= old(fetched) ==>
                && taken == old(taken) && blocks == old(blocks) && HeldFrom(off, n)
                && (p.Length > 0 && off < Size() && old(err).None? && !old(d.world.Canceled(d.clock)) && BlockOf(off) !in blocks ==>
                      end == Failed(OverBudget))
    {
      hide Ranged.WireFails, Ranged.BlockFails, Ranged.CacheOk, Ranged.Metered;
      if off < 0 {
        return 0, NegativeOffset;
      }
      if p.Length == 0 || off >= Size() {
        return 0, if off >= Size() then EndOfFile else Full;
      }
      if d.world.Canceled(d.clock) {
        return 0, Failed(Canceled);
      }
      if err.Some? {
        return 0, Failed(err.value);
      }
      n := 0;
      while n < p.Length
        invariant Valid() && n <= p.Length && off + n <= Size() && err.None?
        invariant p[..n] == d.world.resource[off..off + n]
        invariant p[n..] == old(p[..])[n..]
        invariant old(fetched) <= fetched && old(taken) <= taken
        invariant 0 < budget <= old(fetched) ==>
                    taken == old(taken) && fetched == old(fetched) && blocks == old(blocks) && HeldFrom(off, n)
        decreases p.Length - n
      {
        if off + n >= Size() {
          return n, EndOfFile;
        }
        ghost var before := p[..];
        var m, e := CopyBlock(p, off, n);
        if e.Some? {
          return n, Failed(e.value);
        }
        ReadOn(p[..], before, old(p[..]), d.world.resource, off, n, m);
        n := n + m;
      }
      return n, if off + n >= Size() then EndOfFile else Full;
    }
  }

  /** What asking for the first block may fail with. */
  ghost predicate FirstBlockFails(d: Downloader, delivered: nat, clock: nat, block: nat, e: Error) {
    exists err :: FetchFails(d, delivered, clock, 0, Min(block, |d.world.resource|) - 1, err) && e == Told(err)
  }

  /** OpenRange: the first block is fetched before a reader is handed out. */
  method OpenRange(d: Downloader, rangeBlock: nat, budget: int) returns (r: Ranged?, e: Option<Error>)
    requires d.shared.Ok() && d.world.Truthful()
    requires d.shared.src.contentLength > 0 ==> d.shared.src.contentLength == |d.world.resource|
    modifies d`clock, d.shared
    ensures r != null <==> e.None?
    ensures r != null ==> fresh(r) && r.Valid() && r.d == d && 0 in r.blocks && r.budget == budget
    ensures old(d.shared.src.contentLength) <= 0 ==> e == Some(Unsupported) && d.clock == old(d.clock)
    ensures e.Some? && old(d.shared.src.contentLength) > 0 ==>
              FirstBlockFails(d, d.shared.delivered, d.clock, if rangeBlock > 0 then rangeBlock else DEFAULT_RANGE_BLOCK, e.value)
    ensures r != null ==> r.block == (if rangeBlock > 0 then rangeBlock else DEFAULT_RANGE_BLOCK)
  {
    hide FetchFails, Ranged.CacheOk, Ranged.ErrOk, Ranged.Metered, Ranged.BroughtLast;
    if d.shared.src.contentLength <= 0 {
      return null, Some(Unsupported);
    }
    var reader := new Ranged(d, if rangeBlock > 0 then rangeBlock else DEFAULT_RANGE_BLOCK, budget);
    var _, failed := reader.BlockAt(0);
    if failed.Some? {
      return null, failed;
    }
    return reader, None;
  }
}
