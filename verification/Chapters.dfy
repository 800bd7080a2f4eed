/** chapters.go: chapter marks and synced lyrics carried through a cut. */
module Chapters {
  import opened Common
  import opened CutRange

  datatype Chapter = Chapter(start: int, end: int, title: string)

  // ---------- the code ----------

  /** removed: the cut took this instant of the source. */
  method Removed(c: Cut, t: int) returns (r: bool)
    ensures r <==> 0 <= t < c.total && !c.Kept(t)
  {
    if t < 0 || t >= c.total {
      return false;
    }
    for k := 0 to |c.keeps|
      invariant forall j :: 0 <= j < k ==> !(c.keeps[j].start <= t < c.keeps[j].end)
    {
      if t >= c.keeps[k].start && t < c.keeps[k].end {
        return false;
      }
    }
    return true;
  }

  predicate Sorted(chs: seq<Chapter>) {
    forall i, j :: 0 <= i < j < |chs| ==> chs[i].start <= chs[j].start
  }

  /** The chapters that start at one instant, in order. */
  function StartingAt(chs: seq<Chapter>, t: int): seq<Chapter> {
    if chs == [] then []
    else StartingAt(chs[..|chs| - 1], t) + (if chs[|chs| - 1].start == t then [chs[|chs| - 1]] else [])
  }

  /** A stable sort keeps, for each start, the chapters with it in their order. */
  ghost predicate StablySorted(sorted: seq<Chapter>, chs: seq<Chapter>) {
    Sorted(sorted) && forall t :: StartingAt(sorted, t) == StartingAt(chs, t)
  }

  lemma {:induction false} StartingAtConcat(a: seq<Chapter>, b: seq<Chapter>, t: int)
    ensures StartingAt(a + b, t) == StartingAt(a, t) + StartingAt(b, t)
  {
    if b == [] {
      assert a + b == a;
    } else {
      assert (a + b)[..|a + b| - 1] == a + b[..|b| - 1];
      StartingAtConcat(a, b[..|b| - 1], t);
    }
  }

  lemma {:induction false} NoneStartAt(a: seq<Chapter>, t: int)
    requires forall k :: 0 <= k < |a| ==> a[k].start != t
    ensures StartingAt(a, t) == []
  {
    if a != [] {
      NoneStartAt(a[..|a| - 1], t);
    }
  }

  lemma {:induction false} InsertIsStable(a: seq<Chapter>, b: seq<Chapter>, x: Chapter, t: int)
    requires forall k :: 0 <= k < |b| ==> x.start < b[k].start
    ensures StartingAt(a + [x] + b, t) == StartingAt(a + b + [x], t)
  {
    StartingAtConcat(a + [x], b, t);
    StartingAtConcat(a, [x], t);
    StartingAtConcat(a + b, [x], t);
    StartingAtConcat(a, b, t);
    if t == x.start {
      NoneStartAt(b, t);
    } else {
      NoneStartAt([x], t);
    }
  }

  lemma {:induction false} InsertedSorted(a: seq<Chapter>, b: seq<Chapter>, x: Chapter)
    requires Sorted(a + b)
    requires forall k :: 0 <= k < |a| ==> a[k].start <= x.start
    requires forall k :: 0 <= k < |b| ==> x.start < b[k].start
    ensures StablySorted(a + [x] + b, a + b + [x])
  {
    forall t: int
      ensures StartingAt(a + [x] + b, t) == StartingAt(a + b + [x], t)
    {
      InsertIsStable(a, b, x, t);
    }
    var r := a + [x] + b;
    assert forall k :: 0 <= k < |a| ==> r[k] == (a + b)[k];
    assert forall k :: |a| < k < |r| ==> r[k] == (a + b)[k - 1] == b[k - 1 - |a|];
  }

  lemma {:induction false} InsertedAt(sorted: seq<Chapter>, k: nat, x: Chapter)
    requires Sorted(sorted) && k <= |sorted| && (k > 0 ==> sorted[k - 1].start <= x.start)
    requires forall j :: k <= j < |sorted| ==> x.start < sorted[j].start
    ensures StablySorted(sorted[..k] + [x] + sorted[k..], sorted + [x])
  {
    assert sorted[..k] + sorted[k..] == sorted;
    InsertedSorted(sorted[..k], sorted[k..], x);
  }

  /** Puts x behind the chapters that do not start after it. */
  method Insert(sorted: seq<Chapter>, x: Chapter) returns (r: seq<Chapter>)
    requires Sorted(sorted)
    ensures StablySorted(r, sorted + [x]) && |r| == |sorted| + 1
  {
    var k := |sorted|;
    while k > 0 && sorted[k - 1].start > x.start
      invariant 0 <= k <= |sorted|
      invariant forall j :: k <= j < |sorted| ==> x.start < sorted[j].start
    {
      k := k - 1;
    }
    InsertedAt(sorted, k, x);
    r := sorted[..k] + [x] + sorted[k..];
  }

  /** slices.SortStableFunc by start. */
  method SortByStart(chs: seq<Chapter>) returns (sorted: seq<Chapter>)
    ensures StablySorted(sorted, chs) && |sorted| == |chs|
  {
    sorted := [];
    for i := 0 to |chs|
      invariant |sorted| == i && StablySorted(sorted, chs[..i])
    {
      ghost var was := sorted;
      sorted := Insert(sorted, chs[i]);
      forall t: int
        ensures StartingAt(sorted, t) == StartingAt(chs[..i + 1], t)
      {
        StartingAtConcat(was, [chs[i]], t);
        StartingAtConcat(chs[..i], [chs[i]], t);
        assert chs[..i + 1] == chs[..i] + [chs[i]];
      }
    }
    assert chs[..|chs|] == chs;
  }

  /** Where chapter i of the sorted list ends: an end of zero means at the next start. */
  function EndOf(chs: seq<Chapter>, i: nat, total: int): int
    requires i < |chs|
  {
    if chs[i].end != 0 then chs[i].end
    else if i + 1 < |chs| then chs[i + 1].start
    else total
  }

  /** Whether chapter i has audio of its own inside the source. */
  predicate HasContent(chs: seq<Chapter>, i: nat, total: int)
    requires i < |chs|
  {
    Min(EndOf(chs, i, total), total) > chs[i].start
  }

  predicate Dropped(chs: seq<Chapter>, i: nat, c: Cut)
    requires i < |chs|
  {
    if HasContent(chs, i, c.total) then MapTime(c, EndOf(chs, i, c.total)) <= MapTime(c, chs[i].start)
    else 0 <= chs[i].start < c.total && !c.Kept(chs[i].start)
  }

  function Moved(chs: seq<Chapter>, i: nat, c: Cut): Chapter
    requires i < |chs|
  {
    Chapter(MapTime(c, chs[i].start), if chs[i].end > 0 then MapTime(c, chs[i].end) else 0, chs[i].title)
  }

  /** What the first n chapters of the sorted list become. */
  function Remapped(chs: seq<Chapter>, n: nat, c: Cut): seq<Chapter>
    requires n <= |chs|
  {
    if n == 0 then []
    else Remapped(chs, n - 1, c) + (if Dropped(chs, n - 1, c) then [] else [Moved(chs, n - 1, c)])
  }

  // ---------- the chapter in force ----------

  /** The last chapter listed that starts at or before t. */
  function InForce(chs: seq<Chapter>, t: int): Option<Chapter> {
    if chs == [] then None
    else if chs[|chs| - 1].start <= t then Some(chs[|chs| - 1])
    else InForce(chs[..|chs| - 1], t)
  }

  /** In a list of any order: the latest to start at or before t, the last listed of equals. */
  function LatestAt(chs: seq<Chapter>, t: int): Option<Chapter> {
    if chs == [] then None
    else
      var last, rest := chs[|chs| - 1], LatestAt(chs[..|chs| - 1], t);
      if last.start <= t && (rest.None? || rest.value.start <= last.start) then Some(last) else rest
  }

  predicate UntilNext(chs: seq<Chapter>) {
    forall i :: 0 <= i < |chs| ==> chs[i].end == 0
  }

  /** The same chapter: none, or the one here moved to its place there. */
  predicate SameChapter(here: Option<Chapter>, there: Option<Chapter>, c: Cut) {
    && (here.None? <==> there.None?)
    && (here.Some? ==> there == Some(Chapter(MapTime(c, here.value.start), 0, here.value.title)))
  }

  /** The chapter in force at t is the one in force at its output instant. */
  ghost predicate Preserved(chs: seq<Chapter>, out: seq<Chapter>, c: Cut, t: int) {
    SameChapter(LatestAt(chs, t), LatestAt(out, MapTime(c, t)), c)
  }

  /** The chapter in force at s is the one in force at x of the output, if it survives and
      starts there by x, and the chapters that start after s start there after x. */
  lemma {:induction false} InForceThrough(chs: seq<Chapter>, n: nat, c: Cut, s: int, x: nat)
    requires n <= |chs| && UntilNext(chs) && (n < |chs| ==> s < chs[n].start)
    requires forall i :: 0 <= i < |chs| && s < chs[i].start ==> x < MapTime(c, chs[i].start)
    requires forall i :: 0 <= i < |chs| && chs[i].start <= s < EndOf(chs, i, c.total) ==>
               !Dropped(chs, i, c) && MapTime(c, chs[i].start) <= x
    requires s < c.total
    ensures SameChapter(InForce(chs[..n], s), InForce(Remapped(chs, n, c), x), c)
  {
    if n > 0 {
      var last := chs[n - 1];
      assert chs[..n][..n - 1] == chs[..n - 1];
      if last.start <= s {
        assert s < EndOf(chs, n - 1, c.total);
      } else {
        InForceThrough(chs, n - 1, c, s, x);
        var before := Remapped(chs, n - 1, c);
        assert (before + [Moved(chs, n - 1, c)])[..|before|] == before;
        assert before + [] == before;
      }
    }
  }

  /** For chapters that run until the next, and with any crossfade: at every kept instant
      outside the overlaps the chapter in force is the one in force in the output. */
  lemma {:induction false} SoloInstantKeepsItsChapter(chs: seq<Chapter>, c: Cut, t: int)
    requires Sorted(chs) && UntilNext(chs) && c.Valid() && c.Solo(t)
    ensures SameChapter(InForce(chs, t), InForce(Remapped(chs, |chs|, c), MapTime(c, t)), c)
  {
    var k: nat :| c.SoloIn(t, k);
    var x := MapTime(c, t);
    forall u | t < u
      ensures x < MapTime(c, u)
    {
      LaterMapsAfter(c, t, u, k);
    }
    forall i | 0 <= i < |chs| && chs[i].start <= t < EndOf(chs, i, c.total)
      ensures !Dropped(chs, i, c) && MapTime(c, chs[i].start) <= x
    {
      EarlierMapsBefore(c, t, chs[i].start, k);
    }
    InForceThrough(chs, |chs|, c, t, x);
    assert chs[..|chs|] == chs;
  }

  /** A chapter starts on the far side of the join, by the instant heard with t. */
  ghost predicate StartsAcross(chs: seq<Chapter>, c: Cut, t: int, k: nat)
    requires c.InTail(t, k)
  {
    exists i :: 0 <= i < |chs| && c.keeps[k].end <= chs[i].start <= c.Twin(t, k)
  }

  /** In an overlap two instants are heard at once. The output tells the chapter of the later
      one if a chapter starts between the join and it, and that of the earlier one if not. */
  lemma {:induction false} OverlapVerdict(chs: seq<Chapter>, c: Cut, t: int, k: nat)
    requires Sorted(chs) && UntilNext(chs) && c.Valid() && c.InTail(t, k)
    ensures MapTime(c, c.Twin(t, k)) == MapTime(c, t)
    ensures var told := InForce(Remapped(chs, |chs|, c), MapTime(c, t));
            SameChapter(if StartsAcross(chs, c, t, k) then InForce(chs, c.Twin(t, k)) else InForce(chs, t), told, c)
  {
    TwinsMapAlike(c, t, k);
    var x := MapTime(c, t);
    var s := if StartsAcross(chs, c, t, k) then c.Twin(t, k) else t;
    forall i | 0 <= i < |chs| && s < chs[i].start
      ensures x < MapTime(c, chs[i].start)
    {
      AfterTail(c, t, chs[i].start, k);
    }
    forall i | 0 <= i < |chs| && chs[i].start <= s < EndOf(chs, i, c.total)
      ensures !Dropped(chs, i, c) && MapTime(c, chs[i].start) <= x
    {
      TailChapterSurvives(chs, c, t, k, s, i);
    }
    InForceThrough(chs, |chs|, c, s, x);
    assert chs[..|chs|] == chs;
  }

  lemma {:induction false} TailChapterSurvives(chs: seq<Chapter>, c: Cut, t: int, k: nat, s: int, i: nat)
    requires Sorted(chs) && UntilNext(chs) && c.Valid() && c.InTail(t, k)
    requires s == if StartsAcross(chs, c, t, k) then c.Twin(t, k) else t
    requires i < |chs| && chs[i].start <= s < EndOf(chs, i, c.total)
    ensures !Dropped(chs, i, c) && MapTime(c, chs[i].start) <= MapTime(c, t)
  {
    var end := EndOf(chs, i, c.total);
    AfterTail(c, t, end, k);
    if chs[i].start <= t {
      EarlierMapsBefore(c, t, chs[i].start, k);
    } else {
      AfterTail(c, t, chs[i].start, k);
    }
  }

  /** Two keeps with two seconds of crossfade between them. */
  const FADED: Cut := Cut([Range(0, 10), Range(20, 40)], 2, 40)

  lemma {:induction false} FadedMaps()
    ensures FADED.Valid() && FADED.Kept(9) && !FADED.Solo(9)
    ensures MapTime(FADED, 0) == 0 && MapTime(FADED, 9) == 9 && MapTime(FADED, 15) == 8 && MapTime(FADED, 40) == 28
  {
    assert FADED.keeps[0].start <= 9 < FADED.keeps[0].end;
    assert Join(FADED, 0) == 0 && Join(FADED, 1) == 8;
    assert MapTime(FADED, 15) == MapFrom(FADED, 15, 1);
    assert MapTime(FADED, 40) == MapFrom(FADED, 40, 1) == MapFrom(FADED, 40, 2);
  }

  /** In an overlap it need not be: second 9 is of the first chapter, and its place in the
      output is of the second. */
  lemma {:induction false} OverlapChangesTheChapter()
    ensures var chs := [Chapter(0, 0, "a"), Chapter(15, 0, "b")];
            && FADED.Valid() && FADED.Kept(9) && Sorted(chs) && UntilNext(chs)
            && InForce(chs, 9) == Some(chs[0])
            && InForce(Remapped(chs, 2, FADED), MapTime(FADED, 9)) == Some(Chapter(8, 0, "b"))
  {
    var chs := [Chapter(0, 0, "a"), Chapter(15, 0, "b")];
    FadedMaps();
    assert !Dropped(chs, 1, FADED) && Moved(chs, 1, FADED) == Chapter(8, 0, "b");
    var out := Remapped(chs, 1, FADED) + [Chapter(8, 0, "b")];
    assert Remapped(chs, 2, FADED) == out;
    assert out[|out| - 1] == Chapter(8, 0, "b");
    assert chs[..1] == [chs[0]];
  }

  // ---------- lists in any order ----------

  lemma {:induction false} StartersAreListed(chs: seq<Chapter>, s: int)
    ensures forall x :: x in StartingAt(chs, s) <==> x in chs && x.start == s
  {
    if chs != [] {
      StartersAreListed(chs[..|chs| - 1], s);
      assert chs == chs[..|chs| - 1] + [chs[|chs| - 1]];
    }
  }

  /** The chapter in force is the latest to start, and among those that share a start the
      one listed last. */
  lemma {:induction false} InForceIsLatest(chs: seq<Chapter>, t: int)
    ensures LatestAt(chs, t).None? <==> forall k :: 0 <= k < |chs| ==> t < chs[k].start
    ensures LatestAt(chs, t).Some? ==>
              var s := LatestAt(chs, t).value.start;
              && s <= t && (forall k :: 0 <= k < |chs| && chs[k].start <= t ==> chs[k].start <= s)
              && StartingAt(chs, s) != []
              && LatestAt(chs, t).value == StartingAt(chs, s)[|StartingAt(chs, s)| - 1]
  {
    if chs != [] {
      var front := chs[..|chs| - 1];
      InForceIsLatest(front, t);
      assert forall k :: 0 <= k < |front| ==> chs[k] == front[k];
    }
  }

  /** A stable sort does not change which chapter that is. */
  lemma {:induction false} SortKeepsLatest(sorted: seq<Chapter>, chs: seq<Chapter>, t: int)
    requires StablySorted(sorted, chs)
    ensures LatestAt(sorted, t) == LatestAt(chs, t)
  {
    InForceIsLatest(sorted, t);
    InForceIsLatest(chs, t);
    if LatestAt(sorted, t).Some? {
      var s := LatestAt(sorted, t).value.start;
      StartersAreListed(sorted, s);
      StartersAreListed(chs, s);
      assert LatestAt(sorted, t).value in StartingAt(chs, s);
    }
    if LatestAt(chs, t).Some? {
      var s := LatestAt(chs, t).value.start;
      StartersAreListed(sorted, s);
      StartersAreListed(chs, s);
      assert LatestAt(chs, t).value in StartingAt(sorted, s);
    }
  }

  lemma {:induction false} SortedInForceIsLatest(chs: seq<Chapter>, t: int)
    requires Sorted(chs)
    ensures InForce(chs, t) == LatestAt(chs, t)
  {
    if chs != [] {
      var front := chs[..|chs| - 1];
      SortedInForceIsLatest(front, t);
      InForceIsLatest(front, t);
      if LatestAt(front, t).Some? {
        StartersAreListed(front, LatestAt(front, t).value.start);
        assert LatestAt(front, t).value in front;
      }
    }
  }

  /** Without crossfade the remap of a sorted list is sorted. */
  lemma {:induction false} RemappedIsSorted(chs: seq<Chapter>, n: nat, c: Cut)
    requires n <= |chs| && Sorted(chs) && c.Valid() && c.crossfade <= 0
    ensures Sorted(Remapped(chs, n, c))
    ensures forall k :: 0 <= k < |Remapped(chs, n, c)| ==> n > 0 && Remapped(chs, n, c)[k].start <= MapTime(c, chs[n - 1].start)
  {
    if n > 0 {
      RemappedIsSorted(chs, n - 1, c);
      if n > 1 {
        TimePassesIffKept(c, chs[n - 2].start, chs[n - 1].start);
      }
    }
  }

  lemma {:induction false} SortKeepsUntilNext(sorted: seq<Chapter>, chs: seq<Chapter>)
    requires StablySorted(sorted, chs) && UntilNext(chs)
    ensures UntilNext(sorted)
  {
    forall i | 0 <= i < |sorted|
      ensures sorted[i].end == 0
    {
      StartersAreListed(sorted, sorted[i].start);
      StartersAreListed(chs, sorted[i].start);
      assert sorted[i] in StartingAt(chs, sorted[i].start);
    }
  }

  /** For until-next chapters in any order and a cut without crossfade: the chapter in force
      at any kept instant of the source is the one in force at its instant of the output. */
  lemma {:induction false} ChapterInForceIsPreserved(chs: seq<Chapter>, sorted: seq<Chapter>, c: Cut, t: int)
    requires StablySorted(sorted, chs) && UntilNext(chs) && c.Valid() && c.crossfade <= 0 && c.Kept(t)
    ensures Preserved(chs, Remapped(sorted, |sorted|, c), c, t)
  {
    KeptIsSolo(c, t);
    SortKeepsUntilNext(sorted, chs);
    SoloInstantKeepsItsChapter(sorted, c, t);
    SortKeepsLatest(sorted, chs, t);
    SortedInForceIsLatest(sorted, t);
    RemappedIsSorted(sorted, |sorted|, c);
    SortedInForceIsLatest(Remapped(sorted, |sorted|, c), MapTime(c, t));
  }

  /** remapChapters; sorted shows the stable order it worked in. */
  method RemapChapters(chs: seq<Chapter>, c: Cut) returns (out: seq<Chapter>, sorted: seq<Chapter>)
    ensures StablySorted(sorted, chs)
    ensures out == Remapped(sorted, |sorted|, c)
    ensures UntilNext(chs) && c.Valid() && c.crossfade <= 0 ==> forall t :: c.Kept(t) ==> Preserved(chs, out, c, t)
  {
    sorted := SortByStart(chs);
    out := [];
    for i := 0 to |sorted|
      invariant out == Remapped(sorted, i, c)
    {
      var ch := sorted[i];
      var end := ch.end;
      if end == 0 {
        if i + 1 < |sorted| {
          end := sorted[i + 1].start;
        } else {
          end := c.total;
        }
      }
      var ms := MapInstant(c, ch.start);
      var me := MapInstant(c, end);
      var content := Min(end, c.total) > ch.start;
      var gone := Removed(c, ch.start);
      if (content && me <= ms) || (!content && gone) {
        continue;
      }
      out := out + [Chapter(ms, if ch.end > 0 then me else 0, ch.title)];
    }
    if UntilNext(chs) && c.Valid() && c.crossfade <= 0 {
      forall t | c.Kept(t)
        ensures Preserved(chs, out, c, t)
      {
        ChapterInForceIsPreserved(chs, sorted, c, t);
      }
    }
  }

  /** A chapter with audio of its own is dropped exactly when no more of it was kept than
      the joins it runs over take off. */
  lemma {:induction false} DroppedWithinFades(chs: seq<Chapter>, i: nat, c: Cut)
    requires i < |chs| && c.Valid() && HasContent(chs, i, c.total)
    ensures Dropped(chs, i, c)
       <==> KeptBefore(c.keeps, EndOf(chs, i, c.total)) - KeptBefore(c.keeps, chs[i].start)
            <= FadedFrom(c, EndOf(chs, i, c.total), 0) - FadedFrom(c, chs[i].start, 0)
  {
    MapTimeIsKeptLessFades(c, chs[i].start);
    MapTimeIsKeptLessFades(c, EndOf(chs, i, c.total));
  }

  /** So without crossfade it is dropped exactly when none of it was kept. */
  lemma {:induction false} DroppedIffNothingKept(chs: seq<Chapter>, i: nat, c: Cut)
    requires i < |chs| && c.Valid() && c.crossfade <= 0 && HasContent(chs, i, c.total)
    ensures Dropped(chs, i, c)
       <==> !exists x :: chs[i].start <= x < Min(EndOf(chs, i, c.total), c.total) && c.Kept(x)
  {
    TimePassesIffKept(c, chs[i].start, EndOf(chs, i, c.total));
  }

  /** A remapped chapter with an end of its own holds the instants it held: a kept one that is
      in one keep only lies in it exactly when the mapped instant lies in what it became, and
      its end is still one of its own. */
  lemma {:induction false} OwnEndHoldsTheSame(chs: seq<Chapter>, i: nat, c: Cut, t: int, k: nat)
    requires i < |chs| && c.Valid() && c.SoloIn(t, k) && chs[i].end > 0
    ensures var ch, moved, u := chs[i], Moved(chs, i, c), MapTime(c, t);
            && (ch.start <= t < ch.end <==> moved.start <= u < moved.end)
            && (HasContent(chs, i, c.total) && !Dropped(chs, i, c) ==> moved.end > moved.start)
            && moved.title == ch.title
  {
    InOrder(c, chs[i].start, t, k);
    InOrder(c, chs[i].end, t, k);
  }

  lemma {:induction false} InOrder(c: Cut, u: int, t: int, k: nat)
    requires c.Valid() && c.SoloIn(t, k)
    ensures u <= t <==> MapTime(c, u) <= MapTime(c, t)
  {
    if u <= t {
      EarlierMapsBefore(c, t, u, k);
    } else {
      LaterMapsAfter(c, t, u, k);
    }
  }

  /** With one, a chapter some of which was kept may go: [9, 15) keeps its first second. */
  lemma {:induction false} KeptChapterIsDropped()
    ensures FADED.Valid() && FADED.Kept(9) && HasContent([Chapter(9, 15, "a")], 0, 40) && Dropped([Chapter(9, 15, "a")], 0, FADED)
  {
    FadedMaps();
  }

  // ---------- synced lyrics ----------

  datatype Line = Line(time: int, text: string)

  /** The lines of one set that a cut leaves, shifted. */
  function KeptLines(lines: seq<Line>, c: Cut): seq<Line> {
    if lines == [] then []
    else
      var l := lines[|lines| - 1];
      KeptLines(lines[..|lines| - 1], c)
      + (if 0 <= l.time < c.total && !c.Kept(l.time) then [] else [l.(time := MapTime(c, l.time))])
  }

  /** What is left of a set: exactly the lines whose instant the cut did not take, in order,
      each at the mapped instant with its text. */
  lemma {:induction false} KeptLinesAreShifted(lines: seq<Line>, c: Cut) returns (at: seq<nat>)
    ensures |at| == |KeptLines(lines, c)|
    ensures forall j :: 0 <= j < |at| ==>
              at[j] < |lines| && KeptLines(lines, c)[j] == Line(MapTime(c, lines[at[j]].time), lines[at[j]].text)
    ensures forall i, j :: 0 <= i < j < |at| ==> at[i] < at[j]
    ensures forall k :: 0 <= k < |lines| ==>
              (k in at <==> lines[k].time < 0 || lines[k].time >= c.total || c.Kept(lines[k].time))
  {
    if lines == [] {
      at := [];
    } else {
      var last := |lines| - 1;
      var front := KeptLinesAreShifted(lines[..last], c);
      var l := lines[last];
      at := front + (if 0 <= l.time < c.total && !c.Kept(l.time) then [] else [last]);
      forall k | 0 <= k < last
        ensures k in at <==> k in front
      {
      }
      assert forall j :: 0 <= j < |front| ==> lines[..last][front[j]] == lines[front[j]];
    }
  }

  function KeptSets(sets: seq<seq<Line>>, c: Cut): seq<seq<Line>> {
    if sets == [] then []
    else
      var kept := KeptLines(sets[|sets| - 1], c);
      KeptSets(sets[..|sets| - 1], c) + (if kept == [] then [] else [kept])
  }

  function LineCount(sets: seq<seq<Line>>): nat {
    if sets == [] then 0 else LineCount(sets[..|sets| - 1]) + |sets[|sets| - 1]|
  }

  lemma {:induction false} LineCountAppended(sets: seq<seq<Line>>, lines: seq<Line>)
    ensures LineCount(sets + [lines]) == LineCount(sets) + |lines|
  {
  }

  /** The inner loop of remapSyncedLyrics, over one set. */
  method RemapLines(sl: seq<Line>, c: Cut) returns (lines: seq<Line>, dropped: nat)
    ensures lines == KeptLines(sl, c) && |lines| + dropped == |sl|
  {
    lines, dropped := [], 0;
    for k := 0 to |sl|
      invariant lines == KeptLines(sl[..k], c) && |lines| + dropped == k
    {
      assert sl[..k + 1][..k] == sl[..k];
      var gone := Removed(c, sl[k].time);
      if gone {
        dropped := dropped + 1;
        continue;
      }
      var time := MapInstant(c, sl[k].time);
      lines := lines + [sl[k].(time := time)];
    }
    assert sl[..|sl|] == sl;
  }

  /** remapSyncedLyrics: every line is either kept or counted as dropped, no set is left empty. */
  method RemapSyncedLyrics(sets: seq<seq<Line>>, c: Cut) returns (out: seq<seq<Line>>, dropped: nat)
    ensures out == KeptSets(sets, c)
    ensures LineCount(out) + dropped == LineCount(sets)
    ensures [] !in out
  {
    out, dropped := [], 0;
    for i := 0 to |sets|
      invariant out == KeptSets(sets[..i], c)
      invariant LineCount(out) + dropped == LineCount(sets[..i])
      invariant [] !in out
    {
      assert sets[..i + 1][..i] == sets[..i];
      var lines, gone := RemapLines(sets[i], c);
      dropped := dropped + gone;
      if |lines| == 0 {
        continue;
      }
      LineCountAppended(out, lines);
      out := out + [lines];
    }
    assert sets[..|sets|] == sets;
  }
}
