/** format/select.go: ranking audio candidates and the gate that decides whether quality
    tiers take part. */
module FormatSelect {
  import opened Common
  import opened Text

  datatype Tri = Unknown | Yes | No

  datatype Quality = QualityUnknown | UltraLow | Low | Medium | High

  datatype Layout = LayoutAny | Mono | Stereo | Surround

  datatype Format = Format(
    itag: int,
    mimeType: string,
    codec: string,
    bitrate: int,
    averageBitrate: int,
    channels: int,
    quality: Quality,
    isDRC: Tri,
    isOriginal: Tri)
  {
    function EffectiveBitrate(): int {
      if averageBitrate > 0 then averageBitrate else bitrate
    }
  }

  function Tier(q: Quality): nat {
    match q
    case QualityUnknown => 0
    case UltraLow => 1
    case Low => 2
    case Medium => 3
    case High => 4
  }

  predicate Matches(layout: Layout, channels: int) {
    match layout
    case LayoutAny => false
    case Mono => channels == 1
    case Stereo => channels == 2
    case Surround => channels > 2
  }

  function ChannelCount(layout: Layout): int {
    match layout
    case Mono => 1
    case Stereo => 2
    case _ => 0
  }

  function OriginalRank(t: Tri): int {
    match t
    case Yes => 2
    case Unknown => 1
    case No => 0
  }

  function NonDRCRank(t: Tri): int {
    match t
    case No => 2
    case Unknown => 1
    case Yes => 0
  }

  /** Whether a mono or stereo request can be met without upmixing. */
  function DownmixRank(layout: Layout, channels: int): int {
    var target := ChannelCount(layout);
    if target == 0 then 0
    else if channels <= 0 then -2
    else if channels < target then -1
    else 0
  }

  function FewerChannelsRank(layout: Layout, channels: int): int {
    var target := ChannelCount(layout);
    if target == 0 || channels < target then 0 else -channels
  }

  function CodecFamily(codec: string): string {
    var c := ToLower(TrimSpace(codec));
    if c == "" then ""
    else if "opus" <= c then "opus"
    else if "vorbis" <= c then "vorbis"
    else if "flac" <= c then "flac"
    else if "mp4a" <= c || c == "aac" || c == "m4a" || c == "mp4" then "aac"
    else if "mp3" <= c || c == "mpeg" then "mp3"
    else c
  }

  predicate CodecMatches(want: string, have: string) {
    CodecFamily(want) != "" && CodecFamily(want) == CodecFamily(have)
  }

  function OpusRank(codec: string): int {
    if CodecFamily(codec) == "opus" then 1 else 0
  }

  function Flag(b: bool): int {
    if b then 1 else 0
  }

  /** What the caller asked for. */
  datatype Wish = Wish(prefCodec: string, layout: Layout)

  /** betterThan: whether a outranks b. */
  predicate Better(w: Wish, useTier: bool, a: Format, b: Format) {
    if OriginalRank(a.isOriginal) != OriginalRank(b.isOriginal) then OriginalRank(a.isOriginal) > OriginalRank(b.isOriginal)
    else if w.layout != LayoutAny && Matches(w.layout, a.channels) != Matches(w.layout, b.channels) then Matches(w.layout, a.channels)
    else if w.layout != LayoutAny && DownmixRank(w.layout, a.channels) != DownmixRank(w.layout, b.channels) then
      DownmixRank(w.layout, a.channels) > DownmixRank(w.layout, b.channels)
    else if w.prefCodec != "" && CodecMatches(w.prefCodec, a.codec) != CodecMatches(w.prefCodec, b.codec) then
      CodecMatches(w.prefCodec, a.codec)
    else if NonDRCRank(a.isDRC) != NonDRCRank(b.isDRC) then NonDRCRank(a.isDRC) > NonDRCRank(b.isDRC)
    else if w.layout != LayoutAny && FewerChannelsRank(w.layout, a.channels) != FewerChannelsRank(w.layout, b.channels) then
      FewerChannelsRank(w.layout, a.channels) > FewerChannelsRank(w.layout, b.channels)
    else if useTier && Tier(a.quality) != Tier(b.quality) then Tier(a.quality) > Tier(b.quality)
    else if useTier && OpusRank(a.codec) != OpusRank(b.codec) then OpusRank(a.codec) > OpusRank(b.codec)
    else a.EffectiveBitrate() > b.EffectiveBitrate()
  }

  /** The tiers from worst to best. */
  const QUALITIES := [QualityUnknown, UltraLow, Low, Medium, High]

  /** Alike in all that goes before the tier. */
  predicate Alike(w: Wish, a: Format, b: Format) {
    && a.isOriginal == b.isOriginal && a.channels == b.channels && a.isDRC == b.isDRC
    && CodecMatches(w.prefCodec, a.codec) == CodecMatches(w.prefCodec, b.codec)
  }

  /** What the comparator prefers, in terms of the formats alone, the weightiest first. */
  lemma {:induction false} PreferencesInOrder(w: Wish, useTier: bool, a: Format, b: Format)
    // an original track, and one that may be over one that is not
    ensures a.isOriginal.Yes? && !b.isOriginal.Yes? ==> Better(w, useTier, a, b)
    ensures a.isOriginal.Unknown? && b.isOriginal.No? ==> Better(w, useTier, a, b)
    // the layout asked for; failing that, channels to mix down over too few, and too few over unknown
    ensures a.isOriginal == b.isOriginal ==>
              && (w.layout.Mono? && a.channels == 1 && b.channels != 1 ==> Better(w, useTier, a, b))
              && (w.layout.Stereo? && a.channels == 2 && b.channels != 2 ==> Better(w, useTier, a, b))
              && (w.layout.Surround? && a.channels > 2 && b.channels <= 2 ==> Better(w, useTier, a, b))
              && (w.layout.Stereo? && a.channels > 2 && b.channels < 2 ==> Better(w, useTier, a, b))
              && (w.layout.Stereo? && a.channels == 1 && b.channels <= 0 ==> Better(w, useTier, a, b))
    // the codec asked for
    ensures a.isOriginal == b.isOriginal && (w.layout.LayoutAny? || a.channels == b.channels) && w.prefCodec != "" ==>
              (CodecMatches(w.prefCodec, a.codec) && !CodecMatches(w.prefCodec, b.codec) ==> Better(w, useTier, a, b))
    // a track that is not compressed in its dynamics, and one that may not be over one that is
    ensures Alike(w, a, b.(isDRC := a.isDRC)) && ((a.isDRC.No? && !b.isDRC.No?) || (a.isDRC.Unknown? && b.isDRC.Yes?)) ==>
              Better(w, useTier, a, b)
    // fewer channels of those to mix down
    ensures w.layout.Stereo? && 2 < a.channels < b.channels && Alike(w, a, b.(channels := a.channels)) ==> Better(w, useTier, a, b)
    // the tier and then Opus, where they take part
    ensures useTier && Alike(w, a, b) ==>
              forall i, j :: 0 <= i < j < |QUALITIES| && b.quality == QUALITIES[i] && a.quality == QUALITIES[j] ==>
                Better(w, useTier, a, b)
    ensures useTier && Alike(w, a, b) && a.quality == b.quality && CodecFamily(a.codec) == "opus" && CodecFamily(b.codec) != "opus" ==>
              Better(w, useTier, a, b)
    // and the bitrate, the average one where it is known
    ensures Alike(w, a, b) && (useTier ==> a.quality == b.quality && CodecFamily(a.codec) == CodecFamily(b.codec)) ==>
              (Better(w, useTier, a, b) <==>
               (if a.averageBitrate > 0 then a.averageBitrate else a.bitrate) > if b.averageBitrate > 0 then b.averageBitrate else b.bitrate)
  {
    hide CodecFamily;
  }

  /** The key the tier gate compares by. */
  function Key(w: Wish, f: Format): seq<int> {
    [OriginalRank(f.isOriginal),
     Flag(Matches(w.layout, f.channels)),
     DownmixRank(w.layout, f.channels),
     Flag(w.prefCodec != "" && CodecMatches(w.prefCodec, f.codec)),
     NonDRCRank(f.isDRC),
     FewerChannelsRank(w.layout, f.channels)]
  }

  /** a comes before b from position k on. */
  predicate LexFrom(a: seq<int>, b: seq<int>, k: nat)
    requires k <= |a| == |b|
    decreases |a| - k
  {
    k < |a| && (a[k] < b[k] || (a[k] == b[k] && LexFrom(a, b, k + 1)))
  }

  predicate Lex(a: seq<int>, b: seq<int>)
    requires |a| == |b|
  {
    LexFrom(a, b, 0)
  }

  method LessKey(a: seq<int>, b: seq<int>) returns (r: bool)
    requires |a| == |b|
    ensures r == Lex(a, b)
  {
    for i := 0 to |a|
      invariant Lex(a, b) == LexFrom(a, b, i)
    {
      if a[i] != b[i] {
        return a[i] < b[i];
      }
    }
    return false;
  }

  // ---------- the order ----------

  /** The key of the whole comparison: the gate's key, then what decides within a class. */
  function Rest(useTier: bool, f: Format): seq<int> {
    [if useTier then Tier(f.quality) else 0, if useTier then OpusRank(f.codec) else 0, f.EffectiveBitrate()]
  }

  lemma {:induction false} LexTrichotomy(a: seq<int>, b: seq<int>, k: nat)
    requires k <= |a| == |b|
    ensures a[k..] == b[k..] || LexFrom(a, b, k) || LexFrom(b, a, k)
    ensures LexFrom(a, b, k) ==> !LexFrom(b, a, k) && a[k..] != b[k..]
    decreases |a| - k
  {
    if k < |a| {
      LexTrichotomy(a, b, k + 1);
      assert a[k..] == [a[k]] + a[k + 1..] && b[k..] == [b[k]] + b[k + 1..];
    }
  }

  lemma {:induction false} LexTransitive(a: seq<int>, b: seq<int>, c: seq<int>, k: nat)
    requires k <= |a| == |b| == |c| && LexFrom(a, b, k) && LexFrom(b, c, k)
    ensures LexFrom(a, c, k)
    decreases |a| - k
  {
    if a[k] == b[k] == c[k] {
      LexTransitive(a, b, c, k + 1);
    }
  }

  lemma {:induction false} LexOf3(a: seq<int>, b: seq<int>)
    requires |a| == |b| == 3
    ensures Lex(a, b) <==> a[0] < b[0] || (a[0] == b[0] && (a[1] < b[1] || (a[1] == b[1] && a[2] < b[2])))
  {
    assert LexFrom(a, b, 2) <==> a[2] < b[2];
    assert LexFrom(a, b, 1) <==> a[1] < b[1] || (a[1] == b[1] && LexFrom(a, b, 2));
  }

  lemma {:induction false} LexOf6(a: seq<int>, b: seq<int>)
    requires |a| == |b| == 6
    ensures Lex(a, b) <==>
              if a[0] != b[0] then a[0] < b[0]
              else if a[1] != b[1] then a[1] < b[1]
              else if a[2] != b[2] then a[2] < b[2]
              else if a[3] != b[3] then a[3] < b[3]
              else if a[4] != b[4] then a[4] < b[4]
              else a[5] < b[5]
  {
    assert LexFrom(a, b, 5) <==> a[5] < b[5];
    assert LexFrom(a, b, 4) <==> a[4] < b[4] || (a[4] == b[4] && LexFrom(a, b, 5));
    assert LexFrom(a, b, 3) <==> a[3] < b[3] || (a[3] == b[3] && LexFrom(a, b, 4));
    assert LexFrom(a, b, 2) <==> a[2] < b[2] || (a[2] == b[2] && LexFrom(a, b, 3));
    assert LexFrom(a, b, 1) <==> a[1] < b[1] || (a[1] == b[1] && LexFrom(a, b, 2));
  }

  /** The comparator and the gate agree: a outranks b exactly when its key is greater, or
      the keys are equal and it is greater within their class. */
  lemma {:induction false} BetterFollowsKey(w: Wish, useTier: bool, a: Format, b: Format)
    ensures Better(w, useTier, a, b)
       <==> Lex(Key(w, b), Key(w, a)) || (Key(w, a) == Key(w, b) && Lex(Rest(useTier, b), Rest(useTier, a)))
  {
    LexOf6(Key(w, b), Key(w, a));
    LexOf3(Rest(useTier, b), Rest(useTier, a));
  }

  /** The comparator is a strict weak order. */
  lemma {:induction false} BetterIsStrictWeakOrder(w: Wish, useTier: bool, a: Format, b: Format, c: Format)
    ensures !Better(w, useTier, a, a)
    ensures Better(w, useTier, a, b) && Better(w, useTier, b, c) ==> Better(w, useTier, a, c)
    ensures !Better(w, useTier, a, b) && !Better(w, useTier, b, c) ==> !Better(w, useTier, a, c)
  {
  }

  // ---------- selection ----------

  type Comparator = (Format, Format) -> bool

  function BetterThan(w: Wish, useTier: bool): Comparator {
    (a, b) => Better(w, useTier, a, b)
  }

  ghost predicate StrictWeakOrder(better: Comparator) {
    && (forall a :: !better(a, a))
    && (forall a, b, c :: better(a, b) && better(b, c) ==> better(a, c))
    && (forall a, b, c {:trigger better(a, b), better(b, c)} :: !better(a, b) && !better(b, c) ==> !better(a, c))
  }

  lemma {:induction false} BetterThanIsStrictWeakOrder(w: Wish, useTier: bool)
    ensures StrictWeakOrder(BetterThan(w, useTier))
  {
    forall a, b, c
      ensures !Better(w, useTier, a, a)
      ensures Better(w, useTier, a, b) && Better(w, useTier, b, c) ==> Better(w, useTier, a, c)
      ensures !Better(w, useTier, a, b) && !Better(w, useTier, b, c) ==> !Better(w, useTier, a, c)
    {
      BetterIsStrictWeakOrder(w, useTier, a, b, c);
    }
  }

  /** i holds the first of the candidates that no other outranks. */
  ghost predicate FirstMaximum(c: seq<Format>, keep: Format -> bool, better: Comparator, i: nat) {
    && i < |c| && keep(c[i])
    && (forall j :: 0 <= j < |c| && keep(c[j]) ==> !better(c[j], c[i]))
    && (forall j :: 0 <= j < i && keep(c[j]) ==> better(c[i], c[j]))
  }

  /** bestAmong. */
  method BestAmong(c: seq<Format>, keep: Format -> bool, better: Comparator) returns (best: Option<nat>)
    ensures best.Some? && StrictWeakOrder(better) ==> FirstMaximum(c, keep, better, best.value)
    ensures best.Some? ==> best.value < |c| && keep(c[best.value])
    ensures best.None? ==> forall j :: 0 <= j < |c| ==> !keep(c[j])
  {
    best := None;
    for i := 0 to |c|
      invariant best.Some? ==> best.value < i && keep(c[best.value])
      invariant best.Some? && StrictWeakOrder(better) ==> FirstMaximum(c[..i], keep, better, best.value)
      invariant best.None? ==> forall j :: 0 <= j < i ==> !keep(c[j])
    {
      if !keep(c[i]) {
        continue;
      }
      if best.None? || better(c[i], c[best.value]) {
        if best.Some? && StrictWeakOrder(better) {
          NewMaximum(c, keep, better, best.value, i);
        }
        best := Some(i);
      }
    }
    assert c[..|c|] == c;
  }

  /** What outranks the best so far outranks everything before it. */
  lemma {:induction false} NewMaximum(c: seq<Format>, keep: Format -> bool, better: Comparator, b: nat, i: nat)
    requires StrictWeakOrder(better)
    requires b < i < |c| && FirstMaximum(c[..i], keep, better, b)
    requires keep(c[i]) && better(c[i], c[b])
    ensures FirstMaximum(c[..i + 1], keep, better, i)
  {
  }

  /** Candidate i has the greatest key of the kept ones. */
  ghost predicate TopKey(c: seq<Format>, keep: Format -> bool, w: Wish, i: nat) {
    i < |c| && keep(c[i]) && forall j :: 0 <= j < |c| && keep(c[j]) ==> !Lex(Key(w, c[i]), Key(w, c[j]))
  }

  /** Some candidate is kept, and all those of the greatest key have a known tier. */
  ghost predicate TiersKnown(c: seq<Format>, keep: Format -> bool, w: Wish) {
    && (exists i :: 0 <= i < |c| && keep(c[i]))
    && (forall i :: 0 <= i < |c| && TopKey(c, keep, w, i) ==> c[i].quality != QualityUnknown)
  }

  /** tierUsable. */
  method TierUsable(c: seq<Format>, keep: Format -> bool, w: Wish) returns (r: bool)
    ensures r <==> TiersKnown(c, keep, w)
  {
    var best: seq<int> := [0, 0, 0, 0, 0, 0];
    var have := false;
    ghost var at := 0;
    for i := 0 to |c|
      invariant |best| == 6
      invariant have ==> at < i && keep(c[at]) && best == Key(w, c[at])
      invariant have ==> forall j :: 0 <= j < i && keep(c[j]) ==> !Lex(best, Key(w, c[j]))
      invariant !have ==> forall j :: 0 <= j < i ==> !keep(c[j])
    {
      if !keep(c[i]) {
        continue;
      }
      var less := LessKey(best, Key(w, c[i]));
      LexTrichotomy(Key(w, c[i]), Key(w, c[i]), 0);
      if !have || less {
        if have {
          forall j | 0 <= j < i && keep(c[j])
            ensures !Lex(Key(w, c[i]), Key(w, c[j]))
          {
            if Lex(Key(w, c[i]), Key(w, c[j])) {
              LexTransitive(best, Key(w, c[i]), Key(w, c[j]), 0);
            }
          }
        }
        best, have, at := Key(w, c[i]), true, i;
      }
    }
    if !have {
      return false;
    }
    TopKeysAreEqual(c, keep, w, at);
    for i := 0 to |c|
      invariant forall j :: 0 <= j < i && keep(c[j]) && Key(w, c[j]) == best ==> c[j].quality != QualityUnknown
    {
      if keep(c[i]) && Key(w, c[i]) == best && c[i].quality == QualityUnknown {
        return false;
      }
    }
    return true;
  }

  lemma {:induction false} TopKeysAreEqual(c: seq<Format>, keep: Format -> bool, w: Wish, at: nat)
    requires TopKey(c, keep, w, at)
    ensures forall i :: 0 <= i < |c| ==> (TopKey(c, keep, w, i) <==> keep(c[i]) && Key(w, c[i]) == Key(w, c[at]))
  {
    forall i | 0 <= i < |c|
      ensures TopKey(c, keep, w, i) <==> keep(c[i]) && Key(w, c[i]) == Key(w, c[at])
    {
      LexTrichotomy(Key(w, c[i]), Key(w, c[at]), 0);
    }
  }

  /** What bestWith selects: the first maximum, under tiers if they are known. */
  ghost predicate Winner(c: seq<Format>, keep: Format -> bool, w: Wish, i: nat) {
    FirstMaximum(c, keep, BetterThan(w, TiersKnown(c, keep, w)), i)
  }

  /** bestWith: its contract fixes the answer, for two first maxima cannot differ. */
  method BestWith(c: seq<Format>, keep: Format -> bool, w: Wish) returns (best: Option<nat>)
    ensures best.Some? ==> Winner(c, keep, w, best.value) && forall j :: Winner(c, keep, w, j) ==> j == best.value
    ensures best.None? ==> forall j :: 0 <= j < |c| ==> !keep(c[j])
  {
    var useTier := TierUsable(c, keep, w);
    BetterThanIsStrictWeakOrder(w, useTier);
    best := BestAmong(c, keep, BetterThan(w, useTier));
  }

  /** Outranking by the first six criteria alone. */
  lemma {:induction false} LowerKeyLoses(w: Wish, useTier: bool, a: Format, b: Format)
    requires Lex(Key(w, a), Key(w, b))
    ensures Better(w, useTier, b, a) && !Better(w, useTier, a, b)
  {
    BetterFollowsKey(w, useTier, b, a);
    BetterFollowsKey(w, useTier, a, b);
    LexTrichotomy(Key(w, a), Key(w, b), 0);
  }

  /** The winner is always in the class the gate looked at. */
  lemma {:induction false} WinnerIsInTopClass(c: seq<Format>, keep: Format -> bool, w: Wish, i: nat)
    requires Winner(c, keep, w, i)
    ensures TopKey(c, keep, w, i)
  {
    forall j | 0 <= j < |c| && keep(c[j])
      ensures !Lex(Key(w, c[i]), Key(w, c[j]))
    {
      if Lex(Key(w, c[i]), Key(w, c[j])) {
        LowerKeyLoses(w, TiersKnown(c, keep, w), c[i], c[j]);
      }
    }
  }

  /** Position of an old candidate once another stands at position p, and back. */
  function Shifted(i: nat, p: nat): nat {
    if i < p then i else i + 1
  }

  function Unshifted(j: nat, p: nat): nat {
    if j <= p then j else j - 1
  }

  /** d is c with x put in at position p. */
  ghost predicate Inserted(c: seq<Format>, d: seq<Format>, x: Format, p: nat) {
    p <= |c| && d == c[..p] + [x] + c[p..]
  }

  lemma {:induction false} OldPositions(c: seq<Format>, d: seq<Format>, x: Format, p: nat, i: nat)
    requires Inserted(c, d, x, p)
    ensures |d| == |c| + 1 && d[p] == x
    ensures i < |c| ==> d[Shifted(i, p)] == c[i] && Unshifted(Shifted(i, p), p) == i
    ensures i < |d| && i != p ==> d[i] == c[Unshifted(i, p)] && Shifted(Unshifted(i, p), p) == i
  {
  }

  /** Candidate y of c has a greater key than x. */
  predicate LowerThan(c: seq<Format>, keep: Format -> bool, w: Wish, x: Format, y: nat) {
    y < |c| && keep(c[y]) && Lex(Key(w, x), Key(w, c[y]))
  }

  lemma {:induction false} TopKeyOutranksLower(c: seq<Format>, keep: Format -> bool, w: Wish, x: Format, y: nat, i: nat)
    requires LowerThan(c, keep, w, x, y) && TopKey(c, keep, w, i)
    ensures Lex(Key(w, x), Key(w, c[i])) && !Lex(Key(w, c[i]), Key(w, x))
  {
    var ki, ky, kx := Key(w, c[i]), Key(w, c[y]), Key(w, x);
    LexTrichotomy(ki, ky, 0);
    LexTrichotomy(kx, ki, 0);
    assert ki[0..] == ki && ky[0..] == ky;
    if Lex(ky, ki) {
      LexTransitive(kx, ky, ki, 0);
    }
  }

  lemma {:induction false} TopKeyGoesUp(c: seq<Format>, d: seq<Format>, keep: Format -> bool, w: Wish, x: Format, p: nat, y: nat, i: nat)
    requires Inserted(c, d, x, p) && LowerThan(c, keep, w, x, y) && TopKey(c, keep, w, i)
    ensures TopKey(d, keep, w, Shifted(i, p))
  {
    OldPositions(c, d, x, p, i);
    TopKeyOutranksLower(c, keep, w, x, y, i);
    forall j: nat | j < |d| && keep(d[j])
      ensures !Lex(Key(w, c[i]), Key(w, d[j]))
    {
      OldPositions(c, d, x, p, j);
    }
  }

  lemma {:induction false} TopKeyComesDown(c: seq<Format>, d: seq<Format>, keep: Format -> bool, w: Wish, x: Format, p: nat, y: nat, k: nat)
    requires Inserted(c, d, x, p) && LowerThan(c, keep, w, x, y) && TopKey(d, keep, w, k)
    ensures k != p && TopKey(c, keep, w, Unshifted(k, p))
  {
    OldPositions(c, d, x, p, k);
    OldPositions(c, d, x, p, y);
    forall j: nat | j < |c| && keep(c[j])
      ensures !Lex(Key(w, d[k]), Key(w, c[j]))
    {
      OldPositions(c, d, x, p, j);
    }
  }

  /** A lower-key candidate does not reach the gate. */
  lemma {:induction false} GateIgnoresLowerKeys(c: seq<Format>, d: seq<Format>, keep: Format -> bool, w: Wish, x: Format, p: nat, y: nat)
    requires Inserted(c, d, x, p) && LowerThan(c, keep, w, x, y)
    ensures TiersKnown(c, keep, w) == TiersKnown(d, keep, w)
  {
    OldPositions(c, d, x, p, y);
    assert keep(d[Shifted(y, p)]);
    forall i: nat | TopKey(c, keep, w, i)
      ensures TopKey(d, keep, w, Shifted(i, p)) && d[Shifted(i, p)] == c[i]
    {
      TopKeyGoesUp(c, d, keep, w, x, p, y, i);
      OldPositions(c, d, x, p, i);
    }
    forall k: nat | TopKey(d, keep, w, k)
      ensures TopKey(c, keep, w, Unshifted(k, p)) && d[k] == c[Unshifted(k, p)]
    {
      TopKeyComesDown(c, d, keep, w, x, p, y, k);
      OldPositions(c, d, x, p, k);
    }
  }

  lemma {:induction false} MaximumGoesUp(c: seq<Format>, d: seq<Format>, keep: Format -> bool, better: Comparator, x: Format, p: nat, i: nat)
    requires Inserted(c, d, x, p) && FirstMaximum(c, keep, better, i)
    requires better(c[i], x) && !better(x, c[i])
    ensures FirstMaximum(d, keep, better, Shifted(i, p))
  {
  }

  lemma {:induction false} MaximumComesDown(c: seq<Format>, d: seq<Format>, keep: Format -> bool, better: Comparator, x: Format, p: nat, i: nat)
    requires Inserted(c, d, x, p) && i < |c| && FirstMaximum(d, keep, better, Shifted(i, p))
    ensures FirstMaximum(c, keep, better, i)
  {
    OldPositions(c, d, x, p, i);
    forall j: nat | j < |c| && keep(c[j])
      ensures !better(c[j], c[i])
      ensures j < i ==> better(c[i], c[j])
    {
      OldPositions(c, d, x, p, j);
    }
  }

  /** Adding or removing a candidate of a lower key never changes the winner. */
  lemma {:induction false} LowerKeysNeverMatter(c: seq<Format>, d: seq<Format>, keep: Format -> bool, w: Wish, x: Format, p: nat, y: nat, i: nat)
    requires Inserted(c, d, x, p) && LowerThan(c, keep, w, x, y) && i < |c|
    ensures Winner(c, keep, w, i) <==> Winner(d, keep, w, Shifted(i, p))
    ensures !Winner(d, keep, w, p)
  {
    var useTier := TiersKnown(c, keep, w);
    GateIgnoresLowerKeys(c, d, keep, w, x, p, y);
    if Winner(c, keep, w, i) {
      WinnerIsInTopClass(c, keep, w, i);
      TopKeyOutranksLower(c, keep, w, x, y, i);
      LowerKeyLoses(w, useTier, x, c[i]);
      MaximumGoesUp(c, d, keep, BetterThan(w, useTier), x, p, i);
    }
    if Winner(d, keep, w, Shifted(i, p)) {
      MaximumComesDown(c, d, keep, BetterThan(w, useTier), x, p, i);
    }
    if Winner(d, keep, w, p) {
      WinnerIsInTopClass(d, keep, w, p);
      TopKeyComesDown(c, d, keep, w, x, p, y, p);
    }
  }
}
