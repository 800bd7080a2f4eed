/** youtube/client.go's Enumerate: a playlist listed page by page. */
module Enumerate {
  import opened Common

  /** One item of a page: its video id ("" for what is not a video) and the title its
      parse gave, if it parsed. */
  datatype Item = Item(id: string, parsed: Option<string>)

  datatype Entry = Entry(id: string, title: string, index: nat, channelID: string)

  /** A cap of 0 lists everything; absent predicates never match. */
  datatype Options = Options(maxItems: nat, skip: string -> bool, stop: string -> bool, channelID: string)
  {
    predicate Stops(it: Item) {
      it.id != "" && stop(it.id)
    }

    predicate Skips(it: Item) {
      it.id != "" && skip(it.id)
    }
  }

  // ---------- the one-pass specification ----------

  function CutAtStop(items: seq<Item>, o: Options): (r: seq<Item>)
    ensures |r| <= |items|
  {
    if items == [] || o.Stops(items[0]) then [] else [items[0]] + CutAtStop(items[1..], o)
  }

  predicate NoStop(items: seq<Item>, o: Options) {
    CutAtStop(items, o) == items
  }

  /** The playlist position after an item: every video takes one, listed or not. */
  function After(it: Item, pos: nat): nat {
    if it.id != "" || it.parsed.Some? then pos + 1 else pos
  }

  function PositionAfter(items: seq<Item>, pos: nat): nat {
    if items == [] then pos else PositionAfter(items[1..], After(items[0], pos))
  }

  /** What the items contribute: skipped and unparseable ones nothing. */
  function Listed(items: seq<Item>, pos: nat, o: Options): seq<Entry> {
    if items == [] then []
    else
      var it := items[0];
      (if o.Skips(it) || it.parsed.None? then [] else [Entry(it.id, it.parsed.value, pos, o.channelID)])
      + Listed(items[1..], After(it, pos), o)
  }

  function Cap(entries: seq<Entry>, maxItems: nat): seq<Entry> {
    if 0 < maxItems < |entries| then entries[..maxItems] else entries
  }

  /** All of the playlist, in one pass. */
  function OnePass(items: seq<Item>, o: Options): seq<Entry> {
    Cap(Listed(CutAtStop(items, o), 0, o), o.maxItems)
  }

  function Flat(pages: seq<seq<Item>>): seq<Item> {
    if pages == [] then [] else Flat(pages[..|pages| - 1]) + pages[|pages| - 1]
  }

  // ---------- about the specification ----------

  lemma {:induction false} ListedConcat(a: seq<Item>, b: seq<Item>, pos: nat, o: Options)
    ensures Listed(a + b, pos, o) == Listed(a, pos, o) + Listed(b, PositionAfter(a, pos), o)
    ensures PositionAfter(a + b, pos) == PositionAfter(b, PositionAfter(a, pos))
  {
    if a == [] {
      assert a + b == b;
    } else {
      assert (a + b)[1..] == a[1..] + b;
      ListedConcat(a[1..], b, After(a[0], pos), o);
    }
  }

  lemma {:induction false} FirstAndRest(a: seq<Item>, b: seq<Item>)
    requires a != []
    ensures [a[0]] + (a[1..] + b) == a + b
  {
  }

  lemma {:induction false} NoStopFirst(a: seq<Item>, o: Options)
    requires a != []
    ensures NoStop(a, o) <==> !o.Stops(a[0]) && NoStop(a[1..], o)
  {
    assert a == [a[0]] + a[1..];
    if NoStop(a, o) {
      assert ([a[0]] + CutAtStop(a[1..], o))[1..] == a[1..];
    }
  }

  lemma {:induction false} CutConcat(a: seq<Item>, b: seq<Item>, o: Options)
    ensures CutAtStop(a + b, o) == if NoStop(a, o) then a + CutAtStop(b, o) else CutAtStop(a, o)
  {
    if a == [] {
      assert a + b == b;
      assert NoStop(a, o);
    } else {
      hide NoStop;
      NoStopFirst(a, o);
      assert (a + b)[0] == a[0] && (a + b)[1..] == a[1..] + b;
      if !o.Stops(a[0]) {
        assert CutAtStop(a + b, o) == [a[0]] + CutAtStop(a[1..] + b, o);
        assert CutAtStop(a, o) == [a[0]] + CutAtStop(a[1..], o);
        hide CutAtStop;
        CutConcat(a[1..], b, o);
        FirstAndRest(a, CutAtStop(b, o));
      }
    }
  }

  /** What more items add comes behind. */
  lemma {:induction false} MoreItemsAppend(a: seq<Item>, b: seq<Item>, o: Options)
    ensures Listed(CutAtStop(a, o), 0, o) <= Listed(CutAtStop(a + b, o), 0, o)
    ensures !NoStop(a, o) ==> CutAtStop(a + b, o) == CutAtStop(a, o)
  {
    CutConcat(a, b, o);
    if NoStop(a, o) {
      ListedConcat(a, CutAtStop(b, o), 0, o);
    }
  }

  // ---------- the code ----------

  class Playlist {
    var entries: seq<Entry>
    var errors: nat
    var rawPos: nat

    constructor ()
      ensures entries == [] && errors == 0 && rawPos == 0
    {
      entries, errors, rawPos := [], 0, 0;
    }

    predicate ReachedLimit(o: Options)
      reads this
    {
      o.maxItems > 0 && |entries| >= o.maxItems
    }

    predicate Within(o: Options)
      reads this
    {
      o.maxItems > 0 ==> |entries| <= o.maxItems
    }

    /** appendPlaylistItems. */
    method Append(items: seq<Item>, o: Options) returns (truncated: bool, halted: bool)
      requires Within(o)
      modifies this
      ensures Within(o) && !(truncated && halted)
      // nothing was left over
      ensures !truncated && !halted ==>
                && NoStop(items, o)
                && entries == old(entries) + Listed(items, old(rawPos), o)
                && rawPos == PositionAfter(items, old(rawPos))
      // the stop was met
      ensures halted ==>
                && !NoStop(items, o)
                && entries == old(entries) + Listed(CutAtStop(items, o), old(rawPos), o)
      // the cap was met with items left
      ensures truncated ==>
                && ReachedLimit(o)
                && entries <= old(entries) + Listed(CutAtStop(items, o), old(rawPos), o)
                && exists n: nat :: n < |items| && entries == old(entries) + Listed(items[..n], old(rawPos), o)
      // with none left, it was not met before the last
      ensures !truncated && !halted && items != [] && o.maxItems > 0 ==>
                |old(entries)| + |Listed(items[..|items| - 1], old(rawPos), o)| < o.maxItems
    {
      hide Listed, PositionAfter, CutAtStop, NoStop;
      var k := 0;
      NothingTaken(items, rawPos, o);
      while k < |items|
        invariant k <= |items| && Within(o)
        invariant k > 0 && o.maxItems > 0 ==> |old(entries)| + |Listed(items[..k - 1], old(rawPos), o)| < o.maxItems
        invariant NoStop(items[..k], o)
        invariant entries == old(entries) + Listed(items[..k], old(rawPos), o)
        invariant rawPos == PositionAfter(items[..k], old(rawPos))
      {
        var it := items[k];
        Progress(items, k, old(rawPos), o);
        if ReachedLimit(o) {
          return true, false;
        }
        if o.Stops(it) {
          return false, true;
        }
        k := k + 1;
        if o.Skips(it) {
          rawPos := rawPos + 1;
          continue;
        }
        if it.parsed.None? {
          errors := errors + 1;
          if it.id != "" {
            rawPos := rawPos + 1;
          }
          continue;
        }
        entries := entries + [Entry(it.id, it.parsed.value, rawPos, o.channelID)];
        rawPos := rawPos + 1;
      }
      assert items[..|items|] == items;
      return false, false;
    }
  }

  lemma {:induction false} NothingTaken(items: seq<Item>, pos: nat, o: Options)
    ensures NoStop(items[..0], o) && Listed(items[..0], pos, o) == [] && PositionAfter(items[..0], pos) == pos
  {
  }

  /** One item further along a page. */
  lemma {:induction false} Progress(items: seq<Item>, k: nat, pos: nat, o: Options)
    requires k < |items| && NoStop(items[..k], o)
    ensures var it, here := items[k], PositionAfter(items[..k], pos);
            && Listed(items[..k + 1], pos, o)
               == Listed(items[..k], pos, o)
                  + (if o.Skips(it) || it.parsed.None? then [] else [Entry(it.id, it.parsed.value, here, o.channelID)])
            && PositionAfter(items[..k + 1], pos) == After(it, here)
    ensures NoStop(items[..k + 1], o) <==> !o.Stops(items[k])
    ensures o.Stops(items[k]) ==> CutAtStop(items, o) == items[..k] && !NoStop(items, o)
    ensures Listed(items[..k], pos, o) <= Listed(CutAtStop(items, o), pos, o)
  {
    var a, it := items[..k], items[k];
    assert items[..k + 1] == a + [it] && items == a + items[k..];
    ListedConcat(a, [it], pos, o);
    CutConcat(a, [it], o);
    CutConcat(a, items[k..], o);
    assert CutAtStop([it], o) == if o.Stops(it) then [] else [it];
    ListedConcat(a, CutAtStop(items[k..], o), pos, o);
    if o.Stops(it) {
      assert CutAtStop(items, o) == a + [];
    }
  }

  lemma {:induction false} FlatAppended(pages: seq<seq<Item>>, k: nat)
    requires k < |pages|
    ensures Flat(pages[..k + 1]) == Flat(pages[..k]) + pages[k]
  {
    assert pages[..k + 1][..k] == pages[..k];
  }

  lemma {:induction false} FlatConcat(pages: seq<seq<Item>>, k: nat)
    requires k <= |pages|
    ensures Flat(pages) == Flat(pages[..k]) + Flat(pages[k..])
    decreases |pages|
  {
    if k == |pages| {
      assert pages[..k] == pages && pages[k..] == [];
    } else {
      var front := pages[..|pages| - 1];
      FlatConcat(front, k);
      assert front[..k] == pages[..k] && front[k..] == pages[k..][..|pages[k..]| - 1];
    }
  }

  /** The first k pages were taken whole. */
  ghost predicate TakenWhole(pl: Playlist, pages: seq<seq<Item>>, k: nat, o: Options)
    requires k <= |pages|
    reads pl
  {
    var items := Flat(pages[..k]);
    && NoStop(items, o)
    && pl.entries == Listed(items, 0, o)
    && pl.rawPos == PositionAfter(items, 0)
  }

  /** Reading went no further than page k, stopped or cut short in its last page. */
  ghost predicate Ended(pl: Playlist, pages: seq<seq<Item>>, k: nat, truncated: bool, halted: bool, o: Options)
    requires k <= |pages|
    reads pl
  {
    var items := Flat(pages[..k]);
    && (halted ==> !NoStop(items, o) && pl.entries == Listed(CutAtStop(items, o), 0, o))
    && (truncated ==> pl.ReachedLimit(o) && pl.entries <= Listed(CutAtStop(items, o), 0, o))
  }

  /** Page k - 1 was begun with nothing stopped and the cap not met. */
  ghost predicate Begun(pages: seq<seq<Item>>, k: nat, o: Options) {
    && 0 < k <= |pages|
    && NoStop(Flat(pages[..k - 1]), o)
    && (o.maxItems > 0 ==> |Listed(Flat(pages[..k - 1]), 0, o)| < o.maxItems)
  }

  /** The cap was met within page k - 1, before its last item. */
  ghost predicate CutShort(pages: seq<seq<Item>>, k: nat, o: Options) {
    0 < k <= |pages| && exists n: nat :: MeetsCapWithin(pages, k, n, o)
  }

  ghost predicate MeetsCapWithin(pages: seq<seq<Item>>, k: nat, n: nat, o: Options)
    requires 0 < k <= |pages|
  {
    n < |pages[k - 1]| && MeetsCap(Flat(pages[..k - 1]) + pages[k - 1][..n], o)
  }

  ghost predicate MeetsCap(items: seq<Item>, o: Options) {
    0 < o.maxItems <= |Listed(items, 0, o)|
  }

  /** The cap is met with the very last item of page k - 1, and nothing stopped before. */
  ghost predicate FillsAt(pages: seq<seq<Item>>, k: nat, o: Options) {
    && 0 < k <= |pages| && pages[k - 1] != []
    && NoStop(Flat(pages[..k]), o)
    && MeetsCap(Flat(pages[..k]), o)
    && !MeetsCap(Flat(pages[..k])[..|Flat(pages[..k])| - 1], o)
  }

  lemma {:induction false} PrefixOfItems(a: seq<Item>, b: seq<Item>, o: Options)
    requires a <= b
    ensures NoStop(b, o) ==> NoStop(a, o)
    ensures MeetsCap(a, o) ==> MeetsCap(b, o)
  {
    var rest := b[|a|..];
    assert b == a + rest;
    CutConcat(a, rest, o);
    ListedConcat(a, rest, 0, o);
  }

  lemma {:induction false} PrefixOfPages(pages: seq<seq<Item>>, j: nat, k: nat)
    requires j <= k <= |pages|
    ensures Flat(pages[..j]) <= Flat(pages[..k])
  {
    FlatConcat(pages[..k], j);
    assert pages[..k][..j] == pages[..j];
  }

  lemma {:induction false} NoneFillsPastCut(pages: seq<seq<Item>>, j: nat, k: nat, o: Options)
    requires k <= j <= |pages| && CutShort(pages, k, o)
    ensures !FillsAt(pages, j, o)
  {
    var n: nat :| MeetsCapWithin(pages, k, n, o);
    var a := Flat(pages[..k - 1]) + pages[k - 1][..n];
    FlatAppended(pages, k - 1);
    PrefixOfPages(pages, k, j);
    var all := Flat(pages[..j]);
    assert a <= Flat(pages[..k]) && |a| < |Flat(pages[..k])|;
    assert a <= all[..|all| - 1];
    PrefixOfItems(a, all[..|all| - 1], o);
  }

  lemma {:induction false} NoneFillsPastFull(pages: seq<seq<Item>>, j: nat, k: nat, o: Options)
    requires k < j <= |pages| && MeetsCap(Flat(pages[..k]), o)
    ensures !FillsAt(pages, j, o)
  {
    FlatAppended(pages, j - 1);
    PrefixOfPages(pages, k, j - 1);
    var all := Flat(pages[..j]);
    if pages[j - 1] != [] {
      assert Flat(pages[..k]) <= all[..|all| - 1];
      PrefixOfItems(Flat(pages[..k]), all[..|all| - 1], o);
    }
  }

  lemma {:induction false} NoneFillsWithin(pages: seq<seq<Item>>, j: nat, k: nat, o: Options)
    requires j <= k <= |pages| && !MeetsCap(Flat(pages[..k]), o)
    ensures !FillsAt(pages, j, o)
  {
    PrefixOfPages(pages, j, k);
    PrefixOfItems(Flat(pages[..j]), Flat(pages[..k]), o);
  }

  /** A page taken whole that meets the cap met it with its last item. */
  lemma {:induction false} FilledByPage(pages: seq<seq<Item>>, k: nat, o: Options)
    requires k < |pages| && Begun(pages, k + 1, o) && o.maxItems > 0
    requires NoStop(Flat(pages[..k + 1]), o) && MeetsCap(Flat(pages[..k + 1]), o)
    requires pages[k] != [] ==>
               |Listed(Flat(pages[..k]), 0, o)| + |Listed(pages[k][..|pages[k]| - 1], PositionAfter(Flat(pages[..k]), 0), o)| < o.maxItems
    ensures FillsAt(pages, k + 1, o)
  {
    var a, b := Flat(pages[..k]), pages[k];
    FlatAppended(pages, k);
    EmptyPageAddsNothing(pages, k);
    if b != [] {
      assert (a + b)[..|a + b| - 1] == a + b[..|b| - 1];
      ListedConcat(a, b[..|b| - 1], 0, o);
    }
  }

  lemma {:induction false} EmptyPageAddsNothing(pages: seq<seq<Item>>, k: nat)
    requires k < |pages|
    ensures pages[k] == [] ==> Flat(pages[..k + 1]) == Flat(pages[..k])
  {
    FlatAppended(pages, k);
  }

  /** The cap met after n items of a page met it within the page. */
  lemma {:induction false} CutInPage(pages: seq<seq<Item>>, k: nat, n: nat, o: Options)
    requires k < |pages| && n < |pages[k]| && o.maxItems > 0
    requires o.maxItems <= |Listed(Flat(pages[..k]), 0, o)| + |Listed(pages[k][..n], PositionAfter(Flat(pages[..k]), 0), o)|
    ensures CutShort(pages, k + 1, o)
  {
    ListedConcat(Flat(pages[..k]), pages[k][..n], 0, o);
    assert MeetsCapWithin(pages, k + 1, n, o);
  }

  lemma {:induction false} PageTaken(pages: seq<seq<Item>>, k: nat, o: Options)
    requires k < |pages| && NoStop(Flat(pages[..k]), o)
    ensures var a, b, all := Flat(pages[..k]), pages[k], Flat(pages[..k + 1]);
            && (NoStop(b, o) <==> NoStop(all, o))
            && Listed(all, 0, o) == Listed(a, 0, o) + Listed(b, PositionAfter(a, 0), o)
            && Listed(CutAtStop(all, o), 0, o) == Listed(a, 0, o) + Listed(CutAtStop(b, o), PositionAfter(a, 0), o)
            && PositionAfter(all, 0) == PositionAfter(b, PositionAfter(a, 0))
  {
    var a, b := Flat(pages[..k]), pages[k];
    FlatAppended(pages, k);
    CutConcat(a, b, o);
    ListedConcat(a, b, 0, o);
    ListedConcat(a, CutAtStop(b, o), 0, o);
    if NoStop(a + b, o) {
      assert (a + CutAtStop(b, o))[|a|..] == (a + b)[|a|..];
      assert (a + b)[|a|..] == b && (a + CutAtStop(b, o))[|a|..] == CutAtStop(b, o);
    }
  }

  /** One page through Append. */
  method TakePage(pl: Playlist, pages: seq<seq<Item>>, k: nat, o: Options) returns (truncated: bool, halted: bool)
    requires k < |pages| && pl.Within(o) && TakenWhole(pl, pages, k, o)
    modifies pl
    ensures pl.Within(o) && !(truncated && halted)
    ensures !truncated && !halted ==> TakenWhole(pl, pages, k + 1, o)
    ensures truncated || halted ==> Ended(pl, pages, k + 1, truncated, halted, o)
    ensures truncated ==> CutShort(pages, k + 1, o)
    ensures !truncated && !halted && pl.ReachedLimit(o) && !old(pl.ReachedLimit(o)) ==> FillsAt(pages, k + 1, o)
  {
    PageTaken(pages, k, o);
    truncated, halted := pl.Append(pages[k], o);
    if truncated {
      ghost var n: nat :| n < |pages[k]| && pl.entries == old(pl.entries) + Listed(pages[k][..n], old(pl.rawPos), o);
      CutInPage(pages, k, n, o);
    } else if !halted && pl.ReachedLimit(o) && !old(pl.ReachedLimit(o)) {
      FilledByPage(pages, k, o);
    }
  }

  /** Enumerate over the pages of a playlist, of which the first available can be
      fetched before a request fails. next is the page a returned continuation names. */
  method EnumeratePages(pages: seq<seq<Item>>, available: nat, o: Options)
    returns (pl: Playlist, continuation: Option<nat>)
    requires 0 < available <= |pages|
    ensures fresh(pl)
    // the entries are those of one pass over all the items, however they were paged
    ensures pl.entries == OnePass(Flat(pages[..available]), o)
    // a continuation comes after whole pages only, and the rest resumes without loss
    ensures continuation.Some? ==>
              && 0 < continuation.value < |pages| && pl.ReachedLimit(o)
              && TakenWhole(pl, pages, continuation.value, o)
    // and it is handed out exactly when the cap is met with the last item of a page that
    // is not the last page
    ensures continuation.Some? ==> FillsAt(pages, continuation.value, o) && continuation.value <= available
    ensures forall k :: 0 <= k <= available && k < |pages| && FillsAt(pages, k, o) ==> continuation == Some(k)
    ensures available < |pages| && pl.errors == 0 ==> pl.ReachedLimit(o) || !NoStop(Flat(pages[..available]), o)
  {
    pl := new Playlist();
    var k := 1;
    assert pages[..0] == [];
    assert NoStop([], o);
    var truncated, halted := TakePage(pl, pages, 0, o);
    var failed := false;
    while k < |pages| && !halted && !pl.ReachedLimit(o) && !failed
      invariant 1 <= k <= available && pl.Within(o) && fresh(pl)
      invariant !(truncated && halted)
      invariant !truncated && !halted ==> TakenWhole(pl, pages, k, o)
      invariant truncated || halted ==> Ended(pl, pages, k, truncated, halted, o)
      invariant failed ==> k == available && !truncated && !halted && pl.errors > 0
      invariant Begun(pages, k, o)
      invariant truncated ==> CutShort(pages, k, o)
      invariant !truncated && !halted && pl.ReachedLimit(o) ==> FillsAt(pages, k, o)
      decreases |pages| - k, !failed
    {
      assert !truncated;
      if k == available {
        pl.errors := pl.errors + 1;
        failed := true;
      } else {
        truncated, halted := TakePage(pl, pages, k, o);
        k := k + 1;
      }
    }
    continuation := None;
    if pl.ReachedLimit(o) && !truncated && !halted && k < |pages| {
      continuation := Some(k);
    }
    AllThatCounts(pl, pages, k, available, truncated, halted, o);
    forall j: nat | j <= available && j < |pages| && FillsAt(pages, j, o)
      ensures continuation == Some(j)
    {
      OnlyFillHere(pl, pages, k, available, truncated, halted, j, o);
    }
  }

  lemma {:induction false} OnlyFillHere(pl: Playlist, pages: seq<seq<Item>>, k: nat, available: nat, truncated: bool, halted: bool, j: nat, o: Options)
    requires k <= available <= |pages| && pl.Within(o) && Begun(pages, k, o)
    requires !truncated && !halted ==> TakenWhole(pl, pages, k, o)
    requires truncated || halted ==> Ended(pl, pages, k, truncated, halted, o)
    requires truncated ==> CutShort(pages, k, o)
    requires k == available || halted || pl.ReachedLimit(o)
    requires j <= available && j < |pages| && FillsAt(pages, j, o)
    ensures j == k && !truncated && !halted && pl.ReachedLimit(o)
  {
    if j < k {
      PrefixOfPages(pages, j, k - 1);
      PrefixOfItems(Flat(pages[..j]), Flat(pages[..k - 1]), o);
    } else if halted {
      PrefixOfPages(pages, k, j);
      PrefixOfItems(Flat(pages[..k]), Flat(pages[..j]), o);
    } else if truncated {
      NoneFillsPastCut(pages, j, k, o);
    } else if !pl.ReachedLimit(o) {
      NoneFillsWithin(pages, j, k, o);
    } else if j > k {
      NoneFillsPastFull(pages, j, k, o);
    }
  }

  /** Where the loop leaves off, nothing further would change the result. */
  lemma {:induction false} AllThatCounts(pl: Playlist, pages: seq<seq<Item>>, k: nat, available: nat, truncated: bool, halted: bool, o: Options)
    requires k <= available <= |pages| && pl.Within(o)
    requires !truncated && !halted ==> TakenWhole(pl, pages, k, o)
    requires truncated || halted ==> Ended(pl, pages, k, truncated, halted, o)
    requires k == available || halted || pl.ReachedLimit(o)
    ensures pl.entries == OnePass(Flat(pages[..available]), o)
    ensures halted ==> !NoStop(Flat(pages[..available]), o)
  {
    var a := Flat(pages[..k]);
    var b := Flat(pages[..available][k..]);
    FlatConcat(pages[..available], k);
    assert pages[..available][..k] == pages[..k];
    assert Flat(pages[..available]) == a + b;
    MoreItemsAppend(a, b, o);
    if k == available {
      assert pages[..available][k..] == [];
      assert a + b == a;
    }
  }

  /** Resuming at a continuation, uncapped and from the position reached, gives the rest
      of the uncapped listing: nothing is lost or repeated, and the indices go on. */
  lemma {:induction false} ContinuationResumes(pages: seq<seq<Item>>, k: nat, entries: seq<Entry>, o: Options)
    requires k <= |pages| && NoStop(Flat(pages[..k]), o)
    requires entries == Listed(Flat(pages[..k]), 0, o)
    ensures var rest := Flat(pages[k..]);
            Listed(CutAtStop(Flat(pages), o), 0, o)
            == entries + Listed(CutAtStop(rest, o), PositionAfter(Flat(pages[..k]), 0), o)
  {
    FlatConcat(pages, k);
    CutConcat(Flat(pages[..k]), Flat(pages[k..]), o);
    ListedConcat(Flat(pages[..k]), CutAtStop(Flat(pages[k..]), o), 0, o);
  }

  /** Every entry carries its position among the videos of the playlist. */
  lemma {:induction false} IndexIsPosition(items: seq<Item>, pos: nat, o: Options, k: nat)
    requires k < |Listed(items, pos, o)|
    ensures var e := Listed(items, pos, o)[k];
            exists n :: 0 <= n < |items| && items[n].parsed == Some(e.title) && items[n].id == e.id
                        && e.index == PositionAfter(items[..n], pos) && !o.Skips(items[n])
    decreases |items|
  {
    var it := items[0];
    var here := !(o.Skips(it) || it.parsed.None?);
    if here && k == 0 {
      assert PositionAfter(items[..0], pos) == pos;
      assert items[0].parsed == Some(Listed(items, pos, o)[0].title);
    } else {
      var m := if here then k - 1 else k;
      IndexIsPosition(items[1..], After(it, pos), o, m);
      var e := Listed(items[1..], After(it, pos), o)[m];
      assert Listed(items, pos, o)[k] == e;
      var n :| 0 <= n < |items[1..]| && items[1..][n].parsed == Some(e.title) && items[1..][n].id == e.id
               && e.index == PositionAfter(items[1..][..n], After(it, pos)) && !o.Skips(items[1..][n]);
      assert items[..n + 1][1..] == items[1..][..n];
      assert items[n + 1] == items[1..][n];
    }
  }
}
