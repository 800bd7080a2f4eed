/** sponsorblock/client.go's bestPerOverlap: one submission per overlapping region. */
module SponsorBlock {
  import opened Common

  datatype Segment = Segment(start: int, end: int, locked: bool, votes: int, uuid: string)

  /** The order sort.Slice is given. */
  predicate Before(a: Segment, b: Segment) {
    a.start < b.start || (a.start == b.start && a.end < b.end)
  }

  predicate Sorted(s: seq<Segment>) {
    forall i, j :: 0 <= i < j < |s| ==> !Before(s[j], s[i])
  }

  /** Segments come filtered for a positive length, which truncation to nanoseconds can
      only bring down to zero. */
  predicate Forward(s: seq<Segment>) {
    forall k :: 0 <= k < |s| ==> s[k].start <= s[k].end
  }

  /** betterSegment: locked first, then votes. */
  predicate Better(a: Segment, b: Segment) {
    if a.locked != b.locked then a.locked else a.votes > b.votes
  }

  /** A lock is never passed over, and among equals in that no votes are. */
  predicate AtLeast(a: Segment, b: Segment) {
    (b.locked ==> a.locked) && (a.locked == b.locked ==> b.votes <= a.votes)
  }

  // ---------- regions ----------

  predicate Overlap(a: Segment, b: Segment) {
    a.start < b.end && b.start < a.end
  }

  /** Segment k begins a region: nothing before it reaches past its start. */
  predicate Breaks(s: seq<Segment>, k: nat)
    requires k < |s|
  {
    forall j :: 0 <= j < k ==> s[j].end <= s[k].start
  }

  /** Where the region of segment k begins. */
  function First(s: seq<Segment>, k: nat): (f: nat)
    requires k < |s|
    ensures f <= k && Breaks(s, f)
  {
    if Breaks(s, k) then k else First(s, k - 1)
  }

  /** The beginnings of the regions among the first n segments. */
  function Starts(s: seq<Segment>, n: nat): (r: seq<nat>)
    requires n <= |s|
    ensures forall c :: 0 <= c < |r| ==> r[c] < n
    ensures forall c, d :: 0 <= c < d < |r| ==> r[c] < r[d]
    ensures n > 0 ==> |r| > 0 && r[0] == 0
  {
    if n == 0 then []
    else Starts(s, n - 1) + (if Breaks(s, n - 1) then [n - 1] else [])
  }

  /** The end, exclusive, of region c. */
  function RegionEnd(starts: seq<nat>, c: nat, n: nat): nat
    requires c < |starts|
  {
    if c + 1 < |starts| then starts[c + 1] else n
  }

  /** bestOf: the first of the most authoritative. */
  function BestOf(cluster: seq<Segment>): Segment
    requires cluster != []
  {
    if |cluster| == 1 then cluster[0]
    else
      var best := BestOf(cluster[..|cluster| - 1]);
      var last := cluster[|cluster| - 1];
      if Better(last, best) then last else best
  }

  lemma {:induction false} BestIsMaximal(cluster: seq<Segment>)
    requires cluster != []
    ensures BestOf(cluster) in cluster
    ensures forall k :: 0 <= k < |cluster| ==> !Better(cluster[k], BestOf(cluster)) && AtLeast(BestOf(cluster), cluster[k])
  {
    var b := BestIsFirst(cluster);
  }

  /** Of those no member outranks it is the first: it outranks all before it. */
  lemma {:induction false} BestIsFirst(cluster: seq<Segment>) returns (b: nat)
    requires cluster != []
    ensures b < |cluster| && cluster[b] == BestOf(cluster)
    ensures forall k :: 0 <= k < |cluster| ==> !Better(cluster[k], cluster[b])
    ensures forall k :: 0 <= k < b ==> Better(cluster[b], cluster[k])
  {
    if |cluster| == 1 {
      b := 0;
    } else {
      var front := cluster[..|cluster| - 1];
      b := BestIsFirst(front);
      assert forall k :: 0 <= k < |front| ==> cluster[k] == front[k];
      if Better(cluster[|cluster| - 1], cluster[b]) {
        b := |cluster| - 1;
      }
    }
  }

  // ---------- the code ----------

  method SwapBack(a: array<Segment>, j: nat)
    requires 0 < j < a.Length
    modifies a
    ensures a[..] == old(a[..])[j := old(a[j - 1])][j - 1 := old(a[j])]
    ensures multiset(a[..]) == multiset(old(a[..]))
  {
    a[j], a[j - 1] := a[j - 1], a[j];
  }

  /** sort.Slice by Before; only that the result is a sorted permutation is used. */
  method SortSegments(a: array<Segment>)
    modifies a
    ensures Sorted(a[..]) && multiset(a[..]) == multiset(old(a[..]))
  {
    var i := 0;
    while i < a.Length
      invariant i <= a.Length
      invariant Sorted(a[..i]) && multiset(a[..]) == multiset(old(a[..]))
    {
      var j := i;
      while j > 0 && Before(a[j], a[j - 1])
        invariant 0 <= j <= i
        invariant forall x, y :: 0 <= x < y <= i && y != j ==> !Before(a[y], a[x])
        invariant multiset(a[..]) == multiset(old(a[..]))
      {
        SwapBack(a, j);
        j := j - 1;
      }
      i := i + 1;
    }
    assert a[..a.Length] == a[..];
  }

  method BestOfCluster(cluster: seq<Segment>) returns (best: Segment)
    requires cluster != []
    ensures best == BestOf(cluster)
  {
    best := cluster[0];
    for k := 1 to |cluster|
      invariant best == BestOf(cluster[..k])
    {
      assert cluster[..k + 1][..k] == cluster[..k];
      if Better(cluster[k], best) {
        best := cluster[k];
      }
    }
    assert cluster[..|cluster|] == cluster;
  }

  /** What the merge gives for sorted segments: the best of each region, in order. */
  ghost predicate OnePerRegion(out: seq<Segment>, s: seq<Segment>) {
    var starts := Starts(s, |s|);
    |out| == |starts| && forall c :: 0 <= c < |out| ==>
      starts[c] < RegionEnd(starts, c, |s|) <= |s| && out[c] == BestOf(s[starts[c]..RegionEnd(starts, c, |s|)])
  }

  /** bestPerOverlap: sorts the segments in place and returns the survivors. */
  method BestPerOverlap(a: array<Segment>) returns (out: seq<Segment>)
    requires Forward(a[..])
    modifies a
    ensures Sorted(a[..]) && multiset(a[..]) == multiset(old(a[..])) && Forward(a[..])
    ensures OnePerRegion(out, a[..])
  {
    if a.Length <= 1 {
      out := a[..];
      if a.Length == 1 {
        assert a[..] == [a[0]] && Starts(a[..], 1) == [0];
      }
      return;
    }
    SortSegments(a);
    var s := a[..];
    ForwardPermuted(old(a[..]), s);
    out := MergeSorted(s);
  }

  lemma {:induction false} ForwardPermuted(s: seq<Segment>, t: seq<Segment>)
    requires Forward(s) && multiset(s) == multiset(t)
    ensures Forward(t)
  {
    forall k | 0 <= k < |t|
      ensures t[k].start <= t[k].end
    {
      assert t[k] in multiset(s);
    }
  }

  /** out holds the best of every region before the one that begins at lo. */
  ghost predicate MergedUpTo(out: seq<Segment>, s: seq<Segment>, k: nat, lo: nat)
    requires k <= |s|
  {
    var starts := Starts(s, k);
    && |starts| == |out| + 1 && lo == starts[|out|]
    && forall c :: 0 <= c < |out| ==> starts[c] < starts[c + 1] && out[c] == BestOf(s[starts[c]..starts[c + 1]])
  }

  /** clusterEnd is the furthest the first k segments reach. */
  ghost predicate Furthest(s: seq<Segment>, k: nat, clusterEnd: int)
    requires k <= |s|
  {
    && (forall j :: 0 <= j < k ==> s[j].end <= clusterEnd)
    && (exists j :: 0 <= j < k && s[j].end == clusterEnd)
  }

  /** What the loop holds after k segments. */
  ghost predicate Merging(out: seq<Segment>, cluster: seq<Segment>, clusterEnd: int, s: seq<Segment>, k: nat, lo: nat) {
    lo < k <= |s| && cluster == s[lo..k] && MergedUpTo(out, s, k, lo) && Furthest(s, k, clusterEnd)
  }

  lemma {:induction false} Joined(out: seq<Segment>, cluster: seq<Segment>, clusterEnd: int, s: seq<Segment>, k: nat, lo: nat)
    requires k < |s| && Forward(s) && Merging(out, cluster, clusterEnd, s, k, lo) && s[k].start < clusterEnd
    ensures Merging(out, cluster + [s[k]], Max(clusterEnd, s[k].end), s, k + 1, lo)
  {
  }

  lemma {:induction false} Opened(out: seq<Segment>, cluster: seq<Segment>, clusterEnd: int, s: seq<Segment>, k: nat, lo: nat)
    requires k < |s| && Forward(s) && Merging(out, cluster, clusterEnd, s, k, lo) && clusterEnd <= s[k].start
    ensures Merging(out + [BestOf(cluster)], [s[k]], s[k].end, s, k + 1, k)
  {
  }

  lemma {:induction false} MergeBegins(s: seq<Segment>)
    requires s != []
    ensures Merging([], [s[0]], s[0].end, s, 1, 0)
  {
  }

  lemma {:induction false} MergeEnds(out: seq<Segment>, cluster: seq<Segment>, clusterEnd: int, s: seq<Segment>, lo: nat)
    requires Merging(out, cluster, clusterEnd, s, |s|, lo)
    ensures OnePerRegion(out + [BestOf(cluster)], s)
  {
  }

  /** flush: the cluster's best goes out. */
  method Flush(out: seq<Segment>, cluster: seq<Segment>) returns (r: seq<Segment>)
    requires cluster != []
    ensures r == out + [BestOf(cluster)]
  {
    var best := BestOfCluster(cluster);
    r := out + [best];
  }

  method MergeSorted(s: seq<Segment>) returns (out: seq<Segment>)
    requires s != [] && Sorted(s) && Forward(s)
    ensures OnePerRegion(out, s)
  {
    out := [];
    var cluster := [s[0]];
    var clusterEnd := s[0].end;
    ghost var lo: nat := 0;
    MergeBegins(s);
    for k := 1 to |s|
      invariant cluster != [] && Merging(out, cluster, clusterEnd, s, k, lo)
    {
      if s[k].start < clusterEnd {
        Joined(out, cluster, clusterEnd, s, k, lo);
        cluster, clusterEnd := cluster + [s[k]], Max(clusterEnd, s[k].end);
      } else {
        Opened(out, cluster, clusterEnd, s, k, lo);
        out := Flush(out, cluster);
        cluster, clusterEnd, lo := [s[k]], s[k].end, k;
      }
    }
    MergeEnds(out, cluster, clusterEnd, s, lo);
    out := Flush(out, cluster);
  }

  // ---------- main results ----------

  /** A chain of overlaps from segment i to segment j. */
  ghost predicate Path(s: seq<Segment>, p: seq<nat>, i: nat, j: nat) {
    && p != [] && p[0] == i && p[|p| - 1] == j
    && (forall k :: 0 <= k < |p| ==> p[k] < |s|)
    && (forall k {:trigger p[k]} :: 0 <= k < |p| - 1 ==> Overlap(s[p[k]], s[p[k + 1]]))
  }

  ghost predicate Connected(s: seq<Segment>, i: nat, j: nat) {
    exists p :: Path(s, p, i, j)
  }

  lemma {:induction false} NoBreakBetween(s: seq<Segment>, j: nat, k: nat)
    requires j <= k < |s| && forall m :: j < m <= k ==> !Breaks(s, m)
    ensures First(s, j) == First(s, k)
  {
    if j < k {
      NoBreakBetween(s, j, k - 1);
    }
  }

  /** A segment that reaches past a later one's start is in the same region. */
  lemma {:induction false} ReachingSharesRegion(s: seq<Segment>, j: nat, k: nat)
    requires Sorted(s) && j < k < |s| && s[k].start < s[j].end
    ensures First(s, j) == First(s, k)
  {
    forall m | j < m <= k
      ensures !Breaks(s, m)
    {
      assert s[m].start <= s[k].start by {
        assert m < k ==> !Before(s[k], s[m]);
      }
    }
    NoBreakBetween(s, j, k);
  }

  lemma {:induction false} OverlapSharesRegion(s: seq<Segment>, i: nat, j: nat)
    requires Sorted(s) && i < |s| && j < |s| && Overlap(s[i], s[j])
    ensures First(s, i) == First(s, j)
  {
    if i < j {
      ReachingSharesRegion(s, i, j);
    } else if j < i {
      ReachingSharesRegion(s, j, i);
    }
  }

  lemma {:induction false} PathStaysInRegion(s: seq<Segment>, p: seq<nat>, i: nat, j: nat)
    requires Sorted(s) && i < |s| && j < |s| && Path(s, p, i, j)
    ensures First(s, i) == First(s, j)
    decreases |p|
  {
    if |p| > 1 {
      OverlapSharesRegion(s, p[0], p[1]);
      var q := p[1..];
      forall k {:trigger q[k]} | 0 <= k < |q| - 1
        ensures Overlap(s[q[k]], s[q[k + 1]])
      {
        assert Overlap(s[p[k + 1]], s[p[k + 2]]);
      }
      PathStaysInRegion(s, q, p[1], j);
    }
  }

  /** Every segment is linked by overlaps to the first of its region. */
  lemma {:induction false} PathToFirst(s: seq<Segment>, k: nat) returns (p: seq<nat>)
    requires Sorted(s) && Forward(s) && k < |s|
    ensures Path(s, p, k, First(s, k))
    decreases k
  {
    if Breaks(s, k) {
      p := [k];
    } else {
      var j: nat :| j < k && s[j].end > s[k].start;
      assert !Before(s[k], s[j]);
      assert Overlap(s[k], s[j]);
      ReachingSharesRegion(s, j, k);
      var q := PathToFirst(s, j);
      p := [k] + q;
      assert forall m :: 0 < m < |p| ==> p[m] == q[m - 1];
    }
  }

  lemma {:induction false} ReversedPath(s: seq<Segment>, p: seq<nat>, i: nat, j: nat) returns (r: seq<nat>)
    requires Path(s, p, i, j)
    ensures Path(s, r, j, i)
  {
    r := seq(|p|, k requires 0 <= k < |p| => p[|p| - 1 - k]);
    forall k {:trigger r[k]} | 0 <= k < |r| - 1
      ensures Overlap(s[r[k]], s[r[k + 1]])
    {
      var m := |p| - 2 - k;
      assert Overlap(s[p[m]], s[p[m + 1]]);
    }
  }

  lemma {:induction false} JoinedPath(s: seq<Segment>, p: seq<nat>, q: seq<nat>, i: nat, m: nat, j: nat) returns (r: seq<nat>)
    requires Path(s, p, i, m) && Path(s, q, m, j)
    ensures Path(s, r, i, j)
  {
    r := p + q[1..];
    forall k {:trigger r[k]} | 0 <= k < |r| - 1
      ensures Overlap(s[r[k]], s[r[k + 1]])
    {
      if k < |p| - 1 {
        assert Overlap(s[p[k]], s[p[k + 1]]);
      } else {
        var n := k - (|p| - 1);
        assert r[k] == q[n] && r[k + 1] == q[n + 1];
      }
    }
  }

  /** The regions are exactly the connected components of the overlap relation. */
  lemma {:induction false} RegionsAreComponents(s: seq<Segment>, i: nat, j: nat)
    requires Sorted(s) && Forward(s) && i < |s| && j < |s|
    ensures First(s, i) == First(s, j) <==> Connected(s, i, j)
  {
    if First(s, i) == First(s, j) {
      var p := PathToFirst(s, i);
      var q := PathToFirst(s, j);
      var back := ReversedPath(s, q, j, First(s, j));
      var r := JoinedPath(s, p, back, i, First(s, i), j);
    }
    if Connected(s, i, j) {
      var p :| Path(s, p, i, j);
      PathStaysInRegion(s, p, i, j);
    }
  }

  /** The stretch between two beginnings is one region and nothing else. */
  lemma {:induction false} StretchIsRegion(s: seq<Segment>, n: nat, c: nat, k: nat)
    requires n <= |s| && c < |Starts(s, n)| && k < n
    ensures Starts(s, n)[c] <= k < RegionEnd(Starts(s, n), c, n) <==> First(s, k) == Starts(s, n)[c]
    decreases n
  {
    var before := Starts(s, n - 1);
    if c < |before| {
      if k < n - 1 {
        StretchIsRegion(s, n - 1, c, k);
      } else if !Breaks(s, n - 1) {
        StretchIsRegion(s, n - 1, c, n - 2);
      }
    } else {
      assert Breaks(s, n - 1) && Starts(s, n)[c] == n - 1;
    }
  }

  lemma {:induction false} BestOfStretch(s: seq<Segment>, lo: nat, hi: nat, j: nat)
    requires lo <= j < hi <= |s|
    ensures !Better(s[j], BestOf(s[lo..hi]))
  {
    BestIsMaximal(s[lo..hi]);
    assert s[lo..hi][j - lo] == s[j];
  }

  /** Nobody in a region outranks its survivor. */
  lemma {:induction false} SurvivorIsBest(out: seq<Segment>, s: seq<Segment>, c: nat, j: nat)
    requires OnePerRegion(out, s) && c < |out| && j < |s| && First(s, j) == Starts(s, |s|)[c]
    ensures !Better(s[j], out[c])
  {
    StretchIsRegion(s, |s|, c, j);
    BestOfStretch(s, Starts(s, |s|)[c], RegionEnd(Starts(s, |s|), c, |s|), j);
  }

  lemma {:induction false} RegionsAreApart(s: seq<Segment>, i: nat, j: nat)
    requires Sorted(s) && Forward(s) && i < |s| && j < |s| && First(s, i) < First(s, j)
    ensures s[i].end <= s[j].start
  {
    if s[j].start < s[i].end {
      if i < j {
        ReachingSharesRegion(s, i, j);
      } else if j < i {
        FirstIsMonotone(s, j, i);
      }
    }
  }

  lemma {:induction false} FirstIsMonotone(s: seq<Segment>, j: nat, k: nat)
    requires j <= k < |s|
    ensures First(s, j) <= First(s, k)
  {
    if j < k {
      FirstIsMonotone(s, j, k - 1);
    }
  }

  /** The output holds, per component and in order, one of its members that none of them
      outranks, and its segments are sorted and disjoint. */
  lemma {:induction false} SurvivorsAreBestAndApart(out: seq<Segment>, s: seq<Segment>, c: nat) returns (k: nat)
    requires Sorted(s) && Forward(s) && OnePerRegion(out, s) && c < |out|
    ensures k < |s| && out[c] == s[k] && First(s, k) == Starts(s, |s|)[c]
    ensures forall j :: 0 <= j < |s| && Connected(s, k, j) ==> !Better(s[j], out[c]) && AtLeast(out[c], s[j])
    ensures forall d :: c < d < |out| ==> out[c].end <= out[d].start
  {
    k := MemberOfRegion(out, s, c);
    forall j: nat | j < |s| && Connected(s, k, j)
      ensures !Better(s[j], out[c]) && AtLeast(out[c], s[j])
    {
      RegionsAreComponents(s, k, j);
      SurvivorIsBest(out, s, c, j);
    }
    forall d | c < d < |out|
      ensures out[c].end <= out[d].start
    {
      var k' := MemberOfRegion(out, s, d);
      RegionsAreApart(s, k, k');
    }
  }

  lemma {:induction false} MemberOfRegion(out: seq<Segment>, s: seq<Segment>, c: nat) returns (k: nat)
    requires OnePerRegion(out, s) && c < |out|
    ensures k < |s| && out[c] == s[k] && First(s, k) == Starts(s, |s|)[c]
  {
    var starts := Starts(s, |s|);
    k := MemberOfStretch(s, starts[c], RegionEnd(starts, c, |s|));
    StretchIsRegion(s, |s|, c, k);
  }

  lemma {:induction false} MemberOfStretch(s: seq<Segment>, lo: nat, hi: nat) returns (k: nat)
    requires lo < hi <= |s|
    ensures lo <= k < hi && s[k] == BestOf(s[lo..hi])
  {
    BestIsMaximal(s[lo..hi]);
    var m: nat :| m < hi - lo && s[lo..hi][m] == BestOf(s[lo..hi]);
    k := lo + m;
  }

  /** Every component has a survivor. */
  lemma {:induction false} EveryComponentSurvives(out: seq<Segment>, s: seq<Segment>, k: nat) returns (c: nat)
    requires OnePerRegion(out, s) && k < |s|
    ensures c < |out| && First(s, k) == Starts(s, |s|)[c]
  {
    c := IndexOfStart(s, |s|, First(s, k));
  }

  lemma {:induction false} IndexOfStart(s: seq<Segment>, n: nat, f: nat) returns (c: nat)
    requires f < n <= |s| && Breaks(s, f)
    ensures c < |Starts(s, n)| && Starts(s, n)[c] == f
    decreases n
  {
    if f == n - 1 {
      c := |Starts(s, n)| - 1;
    } else {
      c := IndexOfStart(s, n - 1, f);
    }
  }
}
