/** internal/cutrange/ranges.go's MapTime: where an instant of the source lies in the
    output of a cut. Times are whole nanoseconds. */
module CutRange {
  import opened Common

  datatype Range = Range(start: int, end: int)
  {
    function Duration(): nat {
      if end <= start then 0 else end - start
    }
  }

  datatype Cut = Cut(keeps: seq<Range>, crossfade: int, total: int)
  {
    predicate Kept(t: int) {
      exists k :: 0 <= k < |keeps| && keeps[k].start <= t < keeps[k].end
    }

    /** What a join takes off the output. */
    function Fade(): nat {
      Max(crossfade, 0)
    }

    /** The keeps lie in the source, in order and apart, and a crossfade fits into each,
        as Keeps and ValidateCrossfade see to before a cut is rendered. */
    predicate Valid() {
      && (forall k :: 0 <= k < |keeps| ==> 0 <= keeps[k].start < keeps[k].end <= total)
      && (forall j, k :: 0 <= j < k < |keeps| ==> keeps[j].end <= keeps[k].start)
      && (|keeps| > 1 ==> forall k :: 0 <= k < |keeps| ==> Fade() <= keeps[k].Duration())
    }

    /** Instant t is in keep k, and in no overlap at its joins. */
    predicate SoloIn(t: int, k: nat) {
      && k < |keeps|
      && keeps[k].start + (if k > 0 then Fade() else 0) <= t
      && t < keeps[k].end - (if k + 1 < |keeps| then Fade() else 0)
    }

    /** Instant t is in keep k, and not in the overlap at its start. */
    predicate PastHead(t: int, k: nat) {
      k < |keeps| && keeps[k].start + (if k > 0 then Fade() else 0) <= t < keeps[k].end
    }

    /** It is in the overlap at the end of keep k, and only there; the next overlap does not
        reach into this one. */
    predicate InTail(t: int, k: nat) {
      && PastHead(t, k) && k + 1 < |keeps| && keeps[k].end - Fade() <= t
      && (k + 2 < |keeps| ==> 2 * Fade() <= keeps[k + 1].Duration())
    }

    /** The instant of the next keep that is heard together with t. */
    function Twin(t: int, k: nat): int
      requires InTail(t, k)
    {
      keeps[k + 1].start + (t - (keeps[k].end - Fade()))
    }

    ghost predicate Solo(t: int) {
      exists k: nat :: SoloIn(t, k)
    }
  }

  // ---------- the code ----------

  /** Where keep i begins in the output. */
  function Join(c: Cut, i: nat): nat
    requires i < |c.keeps|
  {
    if i == 0 then 0 else Faded(c, Join(c, i - 1) + c.keeps[i - 1].Duration())
  }

  function Faded(c: Cut, out: nat): nat {
    if c.crossfade > 0 then Max(out - c.crossfade, 0) else out
  }

  /** Where the keeps before i end in the output. */
  function Filled(c: Cut, i: nat): nat
    requires i <= |c.keeps|
  {
    if i == 0 then 0 else Join(c, i - 1) + c.keeps[i - 1].Duration()
  }

  /** The output instant of t, looked for from keep i on. */
  function MapFrom(c: Cut, t: int, i: nat): nat
    requires i <= |c.keeps|
    decreases |c.keeps| - i
  {
    if i == |c.keeps| then Filled(c, i)
    else if t < c.keeps[i].start then Join(c, i)
    else if t < c.keeps[i].end then Join(c, i) + (t - c.keeps[i].start)
    else MapFrom(c, t, i + 1)
  }

  function MapTime(c: Cut, t: int): nat {
    MapFrom(c, t, 0)
  }

  /** MapTime's loop. */
  method MapInstant(c: Cut, t: int) returns (out: nat)
    ensures out == MapTime(c, t)
  {
    out := 0;
    for i := 0 to |c.keeps|
      invariant out == Filled(c, i) && MapTime(c, t) == MapFrom(c, t, i)
    {
      var k := c.keeps[i];
      if i > 0 && c.crossfade > 0 {
        out := Max(out - c.crossfade, 0);
      }
      if t < k.start {
        return;
      }
      if t < k.end {
        out := out + (t - k.start);
        return;
      }
      out := out + k.Duration();
    }
  }

  // ---------- what the mapped instant is ----------

  /** How much of a range lies before t. */
  function Before(r: Range, t: int): nat {
    Max(0, Min(r.end, t) - r.start)
  }

  /** The kept duration before t. */
  function KeptBefore(keeps: seq<Range>, t: int): nat {
    if keeps == [] then 0 else Before(keeps[0], t) + KeptBefore(keeps[1..], t)
  }

  /** What the joins that t has reached, from keep i on, took off. */
  function FadedFrom(c: Cut, t: int, i: nat): nat
    requires i <= |c.keeps|
    decreases |c.keeps| - i
  {
    if i == |c.keeps| then 0
    else (if i > 0 then c.Fade() else 0) + (if t < c.keeps[i].end then 0 else FadedFrom(c, t, i + 1))
  }

  lemma {:induction false} NothingBefore(keeps: seq<Range>, t: int)
    requires forall k :: 0 <= k < |keeps| ==> t <= keeps[k].start
    ensures KeptBefore(keeps, t) == 0
  {
    if keeps != [] {
      assert forall k :: 0 <= k < |keeps[1..]| ==> keeps[1..][k] == keeps[k + 1];
      NothingBefore(keeps[1..], t);
    }
  }

  lemma {:induction false} JoinAfterFade(c: Cut, i: nat)
    requires c.Valid() && i < |c.keeps|
    ensures Join(c, i) == Filled(c, i) - (if i > 0 then c.Fade() else 0)
  {
  }

  /** The first keep that ends after t, from keep i on, is keep i. */
  lemma {:induction false} FormulaWhereFound(c: Cut, t: int, i: nat)
    requires c.Valid() && i < |c.keeps| && t < c.keeps[i].end
    ensures KeptBefore(c.keeps[i..], t) == Before(c.keeps[i], t)
    ensures MapFrom(c, t, i) == Join(c, i) + Before(c.keeps[i], t)
  {
    var rest := c.keeps[i + 1..];
    assert c.keeps[i..][0] == c.keeps[i] && c.keeps[i..][1..] == rest;
    assert forall j :: 0 <= j < |rest| ==> rest[j] == c.keeps[i + 1 + j];
    NothingBefore(rest, t);
  }

  lemma {:induction false} KeptWherePassed(c: Cut, t: int, i: nat)
    requires c.Valid() && i < |c.keeps| && c.keeps[i].end <= t
    ensures KeptBefore(c.keeps[i..], t) == c.keeps[i].Duration() + KeptBefore(c.keeps[i + 1..], t)
  {
    assert c.keeps[i..][0] == c.keeps[i] && c.keeps[i..][1..] == c.keeps[i + 1..];
  }

  lemma {:induction false} MapFromFormula(c: Cut, t: int, i: nat)
    requires c.Valid() && i <= |c.keeps|
    ensures MapFrom(c, t, i) == Filled(c, i) + KeptBefore(c.keeps[i..], t) - FadedFrom(c, t, i)
    decreases |c.keeps| - i
  {
    if i < |c.keeps| {
      JoinAfterFade(c, i);
      if t < c.keeps[i].end {
        FormulaWhereFound(c, t, i);
      } else {
        MapFromFormula(c, t, i + 1);
        KeptWherePassed(c, t, i);
      }
    }
  }

  /** The output instant is the kept duration before t, less a crossfade for every join
      that t has reached. */
  lemma {:induction false} MapTimeIsKeptLessFades(c: Cut, t: int)
    requires c.Valid()
    ensures MapTime(c, t) == KeptBefore(c.keeps, t) - FadedFrom(c, t, 0)
  {
    MapFromFormula(c, t, 0);
    assert c.keeps[0..] == c.keeps;
  }

  lemma {:induction false} NoFadeTakesNothing(c: Cut, t: int, i: nat)
    requires c.crossfade <= 0 && i <= |c.keeps|
    ensures FadedFrom(c, t, i) == 0
    decreases |c.keeps| - i
  {
    if i < |c.keeps| {
      NoFadeTakesNothing(c, t, i + 1);
    }
  }

  lemma {:induction false} KeptIsMonotone(keeps: seq<Range>, t: int, u: int)
    requires t <= u
    ensures KeptBefore(keeps, t) <= KeptBefore(keeps, u)
  {
    if keeps != [] {
      KeptIsMonotone(keeps[1..], t, u);
    }
  }

  /** Kept duration grows from t to u exactly when some instant in between is kept. */
  lemma {:induction false} KeptGrowsIffKept(keeps: seq<Range>, t: int, u: int)
    ensures KeptBefore(keeps, t) < KeptBefore(keeps, u) <==> exists x :: t <= x < u && Cut(keeps, 0, 0).Kept(x)
  {
    if keeps == [] {
    } else {
      var rest := Cut(keeps[1..], 0, 0);
      KeptGrowsIffKept(keeps[1..], t, u);
      if t < u {
        KeptIsMonotone(keeps[1..], t, u);
        if Before(keeps[0], t) < Before(keeps[0], u) {
          assert Cut(keeps, 0, 0).Kept(Max(t, keeps[0].start));
        }
        forall x | t <= x < u && rest.Kept(x)
          ensures Cut(keeps, 0, 0).Kept(x)
        {
          var k :| 0 <= k < |rest.keeps| && rest.keeps[k].start <= x < rest.keeps[k].end;
          assert keeps[k + 1] == rest.keeps[k];
        }
        forall x | t <= x < u && Cut(keeps, 0, 0).Kept(x)
          ensures rest.Kept(x) || Before(keeps[0], t) < Before(keeps[0], u)
        {
          var k :| 0 <= k < |keeps| && keeps[k].start <= x < keeps[k].end;
          if k > 0 {
            assert rest.keeps[k - 1] == keeps[k];
          }
        }
      } else {
        KeptIsMonotone(keeps, u, t);
      }
    }
  }

  /** Without crossfade output time passes from t to u exactly when some instant in
      between is kept. */
  lemma {:induction false} TimePassesIffKept(c: Cut, t: int, u: int)
    requires c.Valid() && c.crossfade <= 0
    ensures MapTime(c, t) < MapTime(c, u) <==> exists x :: t <= x < u && c.Kept(x)
    ensures t <= u ==> MapTime(c, t) <= MapTime(c, u)
  {
    MapTimeIsKeptLessFades(c, t);
    MapTimeIsKeptLessFades(c, u);
    NoFadeTakesNothing(c, t, 0);
    NoFadeTakesNothing(c, u, 0);
    KeptGrowsIffKept(c.keeps, t, u);
    assert forall x :: c.Kept(x) <==> Cut(c.keeps, 0, 0).Kept(x);
    if t <= u {
      KeptIsMonotone(c.keeps, t, u);
    }
  }

  // ---------- order through the cut ----------

  /** Keep i is where the search for t ends. */
  predicate FoundAt(c: Cut, t: int, i: nat) {
    i <= |c.keeps| && (forall j :: 0 <= j < i ==> c.keeps[j].end <= t) && (i < |c.keeps| ==> t < c.keeps[i].end)
  }

  lemma {:induction false} Search(c: Cut, t: int, from: nat) returns (i: nat)
    requires c.Valid() && from <= |c.keeps| && forall j :: 0 <= j < from ==> c.keeps[j].end <= t
    ensures from <= i && FoundAt(c, t, i) && MapFrom(c, t, from) == MapFrom(c, t, i)
    decreases |c.keeps| - from
  {
    if from == |c.keeps| || t < c.keeps[from].end {
      i := from;
    } else {
      i := Search(c, t, from + 1);
    }
  }

  lemma {:induction false} JoinsGoUp(c: Cut, i: nat, j: nat)
    requires c.Valid() && i <= j < |c.keeps|
    ensures Join(c, i) <= Join(c, j)
  {
    if i < j {
      JoinsGoUp(c, i, j - 1);
      JoinAfterFade(c, j);
    }
  }

  /** Below a keep's own stretch of the output lies all that comes before it. */
  lemma {:induction false} EarlierKeepEnds(c: Cut, j: nat, i: nat)
    requires c.Valid() && j < i < |c.keeps|
    ensures Join(c, j) + c.keeps[j].Duration() <= Join(c, i) + c.Fade()
  {
    JoinAfterFade(c, j + 1);
    JoinsGoUp(c, j + 1, i);
  }

  lemma {:induction false} EarlierMapsBefore(c: Cut, t: int, u: int, k: nat)
    requires c.Valid() && c.PastHead(t, k) && u <= t
    ensures MapTime(c, u) <= MapTime(c, t)
  {
    var i := Search(c, t, 0);
    var j := Search(c, u, 0);
    assert i == k;
    if j < i {
      EarlierKeepEnds(c, j, i);
    }
  }

  /** The output has come past keep i's own stretch at any instant found after it. */
  lemma {:induction false} LaterKeepStarts(c: Cut, u: int, i: nat, j: nat)
    requires c.Valid() && i < j && FoundAt(c, u, j)
    ensures Join(c, i) + c.keeps[i].Duration() - (if i + 1 < |c.keeps| then c.Fade() else 0) <= MapFrom(c, u, j)
  {
    if i + 1 < |c.keeps| {
      var last := if j < |c.keeps| then j else |c.keeps| - 1;
      JoinAfterFade(c, i + 1);
      JoinsGoUp(c, i + 1, last);
    }
  }

  lemma {:induction false} LaterMapsAfter(c: Cut, t: int, u: int, k: nat)
    requires c.Valid() && c.SoloIn(t, k) && t < u
    ensures MapTime(c, t) < MapTime(c, u)
  {
    var i := Search(c, t, 0);
    var j := Search(c, u, 0);
    assert i == k && i <= j;
    if i < j {
      LaterKeepStarts(c, u, i, j);
    }
  }

  lemma {:induction false} MapWhereFound(c: Cut, t: int, i: nat)
    requires c.Valid() && FoundAt(c, t, i) && i < |c.keeps|
    ensures MapTime(c, t) == Join(c, i) + Before(c.keeps[i], t)
  {
    var j := Search(c, t, 0);
    assert i == j;
  }

  /** In an overlap two instants map to one. */
  lemma {:induction false} TwinsMapAlike(c: Cut, t: int, k: nat)
    requires c.Valid() && c.InTail(t, k)
    ensures MapTime(c, c.Twin(t, k)) == MapTime(c, t)
  {
    MapWhereFound(c, t, k);
    MapWhereFound(c, c.Twin(t, k), k + 1);
    JoinAfterFade(c, k + 1);
  }

  /** What comes after t maps behind it, but for what lies between the end of its keep and
      its twin. */
  lemma {:induction false} AfterTail(c: Cut, t: int, u: int, k: nat)
    requires c.Valid() && c.InTail(t, k) && t < u
    ensures MapTime(c, t) < MapTime(c, u) <==> u < c.keeps[k].end || c.Twin(t, k) < u
  {
    var twin := c.Twin(t, k);
    TwinsMapAlike(c, t, k);
    if u < c.keeps[k].end {
      MapWhereFound(c, t, k);
      MapWhereFound(c, u, k);
    } else if u <= twin {
      MapWhereFound(c, twin, k + 1);
      MapWhereFound(c, u, k + 1);
    } else {
      LaterThanTwin(c, t, u, k);
    }
  }

  lemma {:induction false} LaterThanTwin(c: Cut, t: int, u: int, k: nat)
    requires c.Valid() && c.InTail(t, k) && c.Twin(t, k) < u
    ensures MapTime(c, c.Twin(t, k)) < MapTime(c, u)
  {
    var twin := c.Twin(t, k);
    MapWhereFound(c, twin, k + 1);
    var j := Search(c, u, 0);
    if j > k + 1 {
      LaterKeepStarts(c, u, k + 1, j);
    }
  }

  /** Without crossfade every kept instant stands alone. */
  lemma {:induction false} KeptIsSolo(c: Cut, t: int)
    requires c.crossfade <= 0 && c.Kept(t)
    ensures c.Solo(t)
  {
    var k :| 0 <= k < |c.keeps| && c.keeps[k].start <= t < c.keeps[k].end;
    assert c.SoloIn(t, k);
  }
}
