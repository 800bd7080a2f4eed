/** playlist_download.go: a coordinator that builds requests one by one and a bounded
    pool of downloads that report into slots. */
module PlaylistRun {
  import opened Common

  /** The outcome of entry i: whether Download was called, whether BuildRequest gave a
      skip reason, and whether there is an error. */
  datatype Outcome = Outcome(i: nat, attempted: bool, skipped: bool, failed: bool)

  datatype Built = BuildError | SkipIt | Request

  /** Where the coordinator is with entry i. */
  datatype Coordinator =
    | Building               // about to call BuildRequest for entry i
    | Decided(built: Built)  // BuildRequest returned
    | Acquiring              // in the select on the semaphore
    | Pacing                 // holds a slot, waiting before the start
    | Waiting                // left the loop, waiting for the workers
    | Finished

  datatype Config = Config(entries: nat, conc: nat, maxDownloads: nat)

  /** sem counts the tokens in the semaphore, running the downloads in flight. */
  datatype State = State(
    at: Coordinator,
    i: nat,
    slots: seq<Option<Outcome>>,
    sem: nat,
    running: set<nat>,
    started: nat,
    canceled: bool,
    capReached: bool)

  datatype Event =
    | Cancel
    | BuildReturns(built: Built)
    | LookAtBuild
    | TakeSlot
    | GiveUpSlot
    | PacingEnds(ok: bool)
    | DownloadEnds(i: nat, ok: bool)
    | Join

  function Start(cfg: Config): State {
    State(if cfg.entries == 0 then Waiting else Building, 0, seq(cfg.entries, k => None), 0, {}, 0, false, false)
  }

  /** On to the next entry, or out of the loop. */
  function Advance(cfg: Config, s: State): State {
    s.(i := s.i + 1, at := if s.i + 1 >= cfg.entries then Waiting else Building)
  }

  function Next(cfg: Config, s: State, e: Event): Option<State> {
    match (e, s.at)
    case (Cancel, _) => if s.canceled then None else Some(s.(canceled := true))
    case (BuildReturns(built), Building) => Some(s.(at := Decided(built)))
    case (LookAtBuild, Decided(built)) =>
      if s.i >= |s.slots| then None
      else if s.canceled then Some(s.(at := Waiting))
      else if built.BuildError? then Some(Advance(cfg, s.(slots := s.slots[s.i := Some(Outcome(s.i, false, false, true))])))
      else if built.SkipIt? then Some(Advance(cfg, s.(slots := s.slots[s.i := Some(Outcome(s.i, false, true, false))])))
      else if cfg.maxDownloads > 0 && s.started == cfg.maxDownloads then Some(s.(capReached := true, at := Waiting))
      else Some(s.(at := Acquiring))
    case (TakeSlot, Acquiring) => if s.sem < cfg.conc then Some(s.(sem := s.sem + 1, at := Pacing)) else None
    case (GiveUpSlot, Acquiring) => if s.canceled then Some(s.(at := Waiting)) else None
    case (PacingEnds(ok), Pacing) =>
      if !ok then (if s.canceled && s.sem > 0 then Some(s.(sem := s.sem - 1, at := Waiting)) else None)
      else Some(Advance(cfg, s.(started := s.started + 1, running := s.running + {s.i})))
    case (DownloadEnds(k, ok), _) =>
      if k !in s.running || k >= |s.slots| || s.sem == 0 then None
      else Some(s.(running := s.running - {k}, sem := s.sem - 1,
                   slots := s.slots[k := Some(Outcome(k, true, false, !ok))]))
    case (Join, Waiting) => if s.running == {} then Some(s.(at := Finished)) else None
    case _ => None
  }

  function Run(cfg: Config, s: State, events: seq<Event>): Option<State>
    decreases |events|
  {
    if events == [] then Some(s)
    else
      match Next(cfg, s, events[0])
      case None => None
      case Some(s') => Run(cfg, s', events[1..])
  }

  // ---------- tally ----------

  datatype Totals = Totals(downloaded: nat, skipped: nat, buildFailed: nat, downloadFailed: nat)

  /** The count an outcome goes into. */
  function Tallied(t: Totals, o: Outcome): Totals {
    if o.skipped then t.(skipped := t.skipped + 1)
    else if !o.attempted then t.(buildFailed := t.buildFailed + 1)
    else if o.failed then t.(downloadFailed := t.downloadFailed + 1)
    else t.(downloaded := t.downloaded + 1)
  }

  function Count(os: seq<Outcome>): Totals {
    if os == [] then Totals(0, 0, 0, 0) else Tallied(Count(os[..|os| - 1]), os[|os| - 1])
  }

  lemma {:induction false} CountAppended(os: seq<Outcome>, o: Outcome)
    ensures Count(os + [o]) == Tallied(Count(os), o)
  {
  }

  /** How many of the outcomes are of a kind. */
  function HowMany(os: seq<Outcome>, kind: Outcome -> bool): nat {
    if os == [] then 0 else HowMany(os[..|os| - 1], kind) + (if kind(os[|os| - 1]) then 1 else 0)
  }

  predicate WasSkipped(o: Outcome) {
    o.skipped
  }

  predicate NotBuilt(o: Outcome) {
    !o.skipped && !o.attempted
  }

  predicate WasAttempted(o: Outcome) {
    !o.skipped && o.attempted
  }

  predicate DidFail(o: Outcome) {
    WasAttempted(o) && o.failed
  }

  /** The counts are those of the kinds: skipped by BuildRequest, failed in it, failed in
      the download; the other attempts are downloads. */
  lemma {:induction false} CountsByKind(os: seq<Outcome>)
    ensures Count(os).skipped == HowMany(os, WasSkipped)
    ensures Count(os).buildFailed == HowMany(os, NotBuilt)
    ensures Count(os).downloadFailed == HowMany(os, DidFail)
    ensures Count(os).downloaded + Count(os).downloadFailed == HowMany(os, WasAttempted)
  {
    if os != [] {
      CountsByKind(os[..|os| - 1]);
    }
  }

  function Sum(t: Totals): nat {
    t.downloaded + t.skipped + t.buildFailed + t.downloadFailed
  }

  lemma {:induction false} CountIsLength(os: seq<Outcome>)
    ensures Sum(Count(os)) == |os|
  {
    if os != [] {
      CountIsLength(os[..|os| - 1]);
    }
  }

  /** The filled slots, in order. */
  function Compact(slots: seq<Option<Outcome>>): seq<Outcome> {
    if slots == [] then []
    else
      var last := slots[|slots| - 1];
      Compact(slots[..|slots| - 1]) + (if last.Some? then [last.value] else [])
  }

  /** One outcome, counted once, in the class it is of. */
  method Add(t: Totals, o: Outcome) returns (t': Totals)
    ensures Sum(t') == Sum(t) + 1
    ensures t'.downloaded >= t.downloaded && t'.skipped >= t.skipped
    ensures t'.buildFailed >= t.buildFailed && t'.downloadFailed >= t.downloadFailed
    ensures t'.skipped > t.skipped <==> o.skipped
    ensures Downloads(t') > Downloads(t) <==> IsAttempt(Some(o))
    ensures t'.downloadFailed > t.downloadFailed <==> IsAttempt(Some(o)) && o.failed
  {
    if o.skipped {
      t' := t.(skipped := t.skipped + 1);
    } else if !o.attempted {
      t' := t.(buildFailed := t.buildFailed + 1);
    } else if o.failed {
      t' := t.(downloadFailed := t.downloadFailed + 1);
    } else {
      t' := t.(downloaded := t.downloaded + 1);
    }
  }

  lemma {:induction false} CompactNext(slots: seq<Option<Outcome>>, k: nat)
    requires k < |slots|
    ensures Compact(slots[..k + 1]) == if slots[k].Some? then Compact(slots[..k]) + [slots[k].value] else Compact(slots[..k])
  {
    assert slots[..k + 1][..k] == slots[..k];
  }

  /** tally. */
  method Tally(slots: seq<Option<Outcome>>) returns (outcomes: seq<Outcome>, t: Totals, remaining: int)
    ensures outcomes == Compact(slots)
    ensures t == Count(outcomes)
    ensures Sum(t) + remaining == |slots| && remaining >= 0
  {
    outcomes, t := [], Totals(0, 0, 0, 0);
    for k := 0 to |slots|
      invariant outcomes == Compact(slots[..k]) && t == Count(outcomes) && |outcomes| <= k
    {
      CompactNext(slots, k);
      if slots[k].Some? {
        CountAppended(outcomes, slots[k].value);
        t := Add(t, slots[k].value);
        outcomes := outcomes + [slots[k].value];
      }
    }
    assert slots[..|slots|] == slots;
    CountIsLength(outcomes);
    remaining := |slots| - Sum(t);
  }

  // ---------- what holds throughout ----------

  function Downloads(t: Totals): nat {
    t.downloaded + t.downloadFailed
  }

  predicate IsAttempt(o: Option<Outcome>) {
    o.Some? && !o.value.skipped && o.value.attempted
  }

  /** The attempts among the outcomes in the slots. */
  function Attempts(slots: seq<Option<Outcome>>): nat {
    if slots == [] then 0
    else Attempts(slots[..|slots| - 1]) + (if IsAttempt(slots[|slots| - 1]) then 1 else 0)
  }

  lemma {:induction false} DownloadsAppended(os: seq<Outcome>, o: Outcome)
    ensures Downloads(Count(os + [o])) == Downloads(Count(os)) + (if IsAttempt(Some(o)) then 1 else 0)
  {
  }

  lemma {:induction false} AttemptsAreTallied(slots: seq<Option<Outcome>>, os: seq<Outcome>)
    requires os == Compact(slots)
    ensures Downloads(Count(os)) == Attempts(slots)
  {
    if slots != [] {
      var front, last := slots[..|slots| - 1], slots[|slots| - 1];
      var c := Compact(front);
      AttemptsAreTallied(front, c);
      if last.Some? {
        DownloadsAppended(c, last.value);
      } else {
        assert os == c;
      }
    }
  }

  lemma {:induction false} FillSlot(slots: seq<Option<Outcome>>, k: nat, o: Outcome)
    requires k < |slots| && slots[k].None?
    ensures Attempts(slots[k := Some(o)]) == Attempts(slots) + (if IsAttempt(Some(o)) then 1 else 0)
    decreases |slots|
  {
    var front := slots[..|slots| - 1];
    if k == |slots| - 1 {
      assert slots[k := Some(o)][..|slots| - 1] == front;
    } else {
      assert slots[k := Some(o)][..|slots| - 1] == front[k := Some(o)];
      FillSlot(front, k, o);
    }
  }

  lemma {:induction false} NoAttempts(slots: seq<Option<Outcome>>)
    requires forall k :: 0 <= k < |slots| ==> slots[k].None?
    ensures Attempts(slots) == 0
  {
    if slots != [] {
      NoAttempts(slots[..|slots| - 1]);
    }
  }

  predicate InLoop(at: Coordinator) {
    at.Building? || at.Decided? || at.Acquiring? || at.Pacing?
  }

  ghost predicate SlotsInv(cfg: Config, s: State) {
    && |s.slots| == cfg.entries && s.i <= cfg.entries
    && (InLoop(s.at) ==> s.i < cfg.entries)
    // in flight are started entries whose slot is still empty
    && (forall k :: k in s.running ==> k < s.i && s.slots[k].None?)
    // everything before i is in flight or has its outcome, nothing from i on has
    && (forall k :: 0 <= k < s.i ==> k in s.running || s.slots[k].Some?)
    && (forall k :: s.i <= k < |s.slots| ==> s.slots[k].None?)
    && (forall k :: 0 <= k < |s.slots| && s.slots[k].Some? ==> s.slots[k].value.i == k)
    && (s.at.Finished? ==> s.running == {})
  }

  ghost predicate CountsInv(cfg: Config, s: State) {
    && s.sem == |s.running| + (if s.at.Pacing? then 1 else 0)
    && s.sem <= cfg.conc
    && s.started == |s.running| + Attempts(s.slots)
    && (cfg.maxDownloads > 0 ==> s.started <= cfg.maxDownloads)
    && (cfg.maxDownloads > 0 && (s.at.Acquiring? || s.at.Pacing?) ==> s.started < cfg.maxDownloads)
    && (s.capReached ==> s.started == cfg.maxDownloads > 0 && s.i < cfg.entries && !InLoop(s.at))
  }

  ghost predicate Inv(cfg: Config, s: State) {
    SlotsInv(cfg, s) && CountsInv(cfg, s)
  }

  lemma {:induction false} LookKeepsSlots(cfg: Config, s: State)
    requires SlotsInv(cfg, s) && Next(cfg, s, LookAtBuild).Some?
    ensures SlotsInv(cfg, Next(cfg, s, LookAtBuild).value)
  {
  }

  lemma {:induction false} EndKeepsSlots(cfg: Config, s: State, k: nat, ok: bool)
    requires SlotsInv(cfg, s) && Next(cfg, s, DownloadEnds(k, ok)).Some?
    ensures SlotsInv(cfg, Next(cfg, s, DownloadEnds(k, ok)).value)
  {
  }

  lemma {:induction false} NextKeepsSlots(cfg: Config, s: State, e: Event)
    requires SlotsInv(cfg, s) && Next(cfg, s, e).Some?
    ensures SlotsInv(cfg, Next(cfg, s, e).value)
  {
    match e {
      case LookAtBuild => LookKeepsSlots(cfg, s);
      case DownloadEnds(k, ok) => EndKeepsSlots(cfg, s, k, ok);
      case _ =>
    }
  }

  lemma {:induction false} LookKeepsCounts(cfg: Config, s: State)
    requires Inv(cfg, s) && Next(cfg, s, LookAtBuild).Some?
    ensures CountsInv(cfg, Next(cfg, s, LookAtBuild).value)
  {
    if !s.canceled && s.at.built.BuildError? {
      FillSlot(s.slots, s.i, Outcome(s.i, false, false, true));
    } else if !s.canceled && s.at.built.SkipIt? {
      FillSlot(s.slots, s.i, Outcome(s.i, false, true, false));
    }
  }

  lemma {:induction false} EndKeepsCounts(cfg: Config, s: State, k: nat, ok: bool)
    requires Inv(cfg, s) && Next(cfg, s, DownloadEnds(k, ok)).Some?
    ensures CountsInv(cfg, Next(cfg, s, DownloadEnds(k, ok)).value)
  {
    FillSlot(s.slots, k, Outcome(k, true, false, !ok));
    assert |s.running - {k}| == |s.running| - 1;
  }

  lemma {:induction false} PacingKeepsCounts(cfg: Config, s: State, ok: bool)
    requires Inv(cfg, s) && Next(cfg, s, PacingEnds(ok)).Some?
    ensures CountsInv(cfg, Next(cfg, s, PacingEnds(ok)).value)
  {
  }

  lemma {:induction false} NextKeepsCounts(cfg: Config, s: State, e: Event)
    requires Inv(cfg, s) && Next(cfg, s, e).Some?
    ensures CountsInv(cfg, Next(cfg, s, e).value)
  {
    match e {
      case LookAtBuild => LookKeepsCounts(cfg, s);
      case DownloadEnds(k, ok) => EndKeepsCounts(cfg, s, k, ok);
      case PacingEnds(ok) => PacingKeepsCounts(cfg, s, ok);
      case _ =>
    }
  }

  lemma {:induction false} RunKeepsInv(cfg: Config, s: State, events: seq<Event>)
    requires Inv(cfg, s) && Run(cfg, s, events).Some?
    ensures Inv(cfg, Run(cfg, s, events).value)
    decreases |events|
  {
    if events != [] {
      NextKeepsSlots(cfg, s, events[0]);
      NextKeepsCounts(cfg, s, events[0]);
      RunKeepsInv(cfg, Next(cfg, s, events[0]).value, events[1..]);
    }
  }

  lemma {:induction false} StartIsOk(cfg: Config)
    ensures Inv(cfg, Start(cfg))
  {
    NoAttempts(Start(cfg).slots);
  }

  /** In every interleaving: downloads in flight stay within the concurrency, starts
      within the cap, and each slot holds the outcome of its own entry. */
  lemma {:induction false} RunStaysWithinLimits(cfg: Config, events: seq<Event>)
    requires Run(cfg, Start(cfg), events).Some?
    ensures var s := Run(cfg, Start(cfg), events).value;
            && |s.running| <= cfg.conc
            && (cfg.maxDownloads > 0 ==> s.started <= cfg.maxDownloads)
            && |s.slots| == cfg.entries
            && forall k :: 0 <= k < |s.slots| && s.slots[k].Some? ==> s.slots[k].value.i == k
  {
    StartIsOk(cfg);
    RunKeepsInv(cfg, Start(cfg), events);
  }

  lemma {:induction false} CompactPrefix(slots: seq<Option<Outcome>>, n: nat)
    requires n <= |slots|
    requires forall k :: 0 <= k < |slots| ==> (slots[k].Some? <==> k < n)
    ensures |Compact(slots)| == n && forall k :: 0 <= k < n ==> Compact(slots)[k] == slots[k].value
    decreases |slots|
  {
    if slots != [] {
      CompactPrefix(slots[..|slots| - 1], Min(n, |slots| - 1));
    }
  }

  /** When the run returns, its outcomes are those of a prefix of the playlist, in
      playlist order; the counts account for every entry, and the attempts are the starts. */
  lemma {:induction false} ResultAccountsForEveryEntry(cfg: Config, events: seq<Event>)
    requires Run(cfg, Start(cfg), events).Some?
    requires Run(cfg, Start(cfg), events).value.at.Finished?
    ensures var s := Run(cfg, Start(cfg), events).value;
            var os := Compact(s.slots);
            && |os| == s.i <= cfg.entries
            && (forall k :: 0 <= k < |os| ==> os[k].i == k)
            && Sum(Count(os)) + (cfg.entries - s.i) == cfg.entries
            && Downloads(Count(os)) == s.started
            && (s.capReached ==> Downloads(Count(os)) == cfg.maxDownloads && s.i < cfg.entries)
            && (!s.canceled && !s.capReached ==> s.i == cfg.entries)
  {
    StartIsOk(cfg);
    RunKeepsInv(cfg, Start(cfg), events);
    LeftEarlyForAReason(cfg, Start(cfg), events);
    var s := Run(cfg, Start(cfg), events).value;
    CompactPrefix(s.slots, s.i);
    AttemptsAreTallied(s.slots, Compact(s.slots));
    CountIsLength(Compact(s.slots));
  }

  /** The coordinator leaves before the last entry only when canceled or capped. */
  predicate Reasoned(cfg: Config, s: State) {
    (s.at.Waiting? || s.at.Finished?) && s.i < cfg.entries ==> s.canceled || s.capReached
  }

  lemma {:induction false} LeftEarlyForAReason(cfg: Config, s: State, events: seq<Event>)
    requires Reasoned(cfg, s) && Run(cfg, s, events).Some?
    ensures Reasoned(cfg, Run(cfg, s, events).value)
    decreases |events|
  {
    if events != [] {
      LeftEarlyForAReason(cfg, Next(cfg, s, events[0]).value, events[1..]);
    }
  }

  // ---------- the run ends ----------

  function Rank(at: Coordinator): nat {
    match at
    case Building => 5
    case Decided(_) => 4
    case Acquiring => 3
    case Pacing => 2
    case Waiting => 1
    case Finished => 0
  }

  /** What is left to do: the entries not looked at, the coordinator's place with this one,
      the downloads in flight, and the caller's cancellation. */
  function Measure(cfg: Config, s: State): int {
    6 * (cfg.entries - s.i) + Rank(s.at) + |s.running| + (if s.canceled then 0 else 1)
  }

  lemma {:induction false} LookDrops(cfg: Config, s: State)
    requires Next(cfg, s, LookAtBuild).Some?
    ensures Measure(cfg, Next(cfg, s, LookAtBuild).value) < Measure(cfg, s)
  {
  }

  lemma {:induction false} PacingDrops(cfg: Config, s: State, ok: bool)
    requires Next(cfg, s, PacingEnds(ok)).Some?
    ensures Measure(cfg, Next(cfg, s, PacingEnds(ok)).value) < Measure(cfg, s)
  {
    OneMoreRunning(s.running, s.i);
  }

  lemma {:induction false} EndDrops(cfg: Config, s: State, k: nat, ok: bool)
    requires Next(cfg, s, DownloadEnds(k, ok)).Some?
    ensures Measure(cfg, Next(cfg, s, DownloadEnds(k, ok)).value) < Measure(cfg, s)
  {
    assert |s.running - {k}| == |s.running| - 1;
  }

  lemma {:induction false} NextDrops(cfg: Config, s: State, e: Event)
    requires Next(cfg, s, e).Some?
    ensures Measure(cfg, Next(cfg, s, e).value) < Measure(cfg, s)
  {
    match e {
      case LookAtBuild => LookDrops(cfg, s);
      case DownloadEnds(k, ok) => EndDrops(cfg, s, k, ok);
      case PacingEnds(ok) => PacingDrops(cfg, s, ok);
      case _ =>
    }
  }

  lemma {:induction false} OneMoreRunning(running: set<nat>, i: nat)
    ensures |running + {i}| <= |running| + 1
  {
    if i in running {
      assert running + {i} == running;
    }
  }

  lemma {:induction false} RunIsBounded(cfg: Config, s: State, events: seq<Event>)
    requires Run(cfg, s, events).Some?
    ensures |events| + Measure(cfg, Run(cfg, s, events).value) <= Measure(cfg, s)
    decreases |events|
  {
    if events != [] {
      NextDrops(cfg, s, events[0]);
      RunIsBounded(cfg, Next(cfg, s, events[0]).value, events[1..]);
    }
  }

  /** While the run has not returned something can happen, without the caller's doing: the
      coordinator moves, or waits for a slot or for the workers, and then one is in flight. */
  lemma {:induction false} NeverStuck(cfg: Config, s: State) returns (e: Event)
    requires Inv(cfg, s) && cfg.conc > 0 && !s.at.Finished?
    ensures Next(cfg, s, e).Some? && e != Cancel
  {
    if s.at.Building? {
      e := BuildReturns(Request);
    } else if s.at.Decided? {
      e := LookAtBuild;
    } else if s.at.Pacing? {
      e := PacingEnds(true);
    } else if s.at.Acquiring? && s.sem < cfg.conc {
      e := TakeSlot;
    } else if s.running == {} {
      e := Join;
    } else {
      var k :| k in s.running;
      e := DownloadEnds(k, true);
    }
  }

  /** Whatever the downloads and the scheduler do, a playlist run makes at most six steps an
      entry, one for the cancellation and one for the return, and only stops by returning. */
  lemma {:induction false} EveryRunEnds(cfg: Config, events: seq<Event>)
    requires Run(cfg, Start(cfg), events).Some? && cfg.conc > 0
    ensures |events| <= 6 * cfg.entries + 6
    ensures Run(cfg, Start(cfg), events).value.at.Finished? || exists e :: Next(cfg, Run(cfg, Start(cfg), events).value, e).Some? && e != Cancel
  {
    StartIsOk(cfg);
    RunIsBounded(cfg, Start(cfg), events);
    RunKeepsInv(cfg, Start(cfg), events);
    var s := Run(cfg, Start(cfg), events).value;
    if !s.at.Finished? {
      var e := NeverStuck(cfg, s);
    }
  }

  // ---------- outcomes and what happened ----------

  /** What BuildRequest returned, call by call: the events tell. */
  function BuildsOf(events: seq<Event>): seq<Built> {
    if events == [] then []
    else
      var last := events[|events| - 1];
      BuildsOf(events[..|events| - 1]) + (if last.BuildReturns? then [last.built] else [])
  }

  /** Outcome o of entry k is what these events made of it: how its download ended, or what
      BuildRequest returned for it. */
  predicate IsHow(events: seq<Event>, k: nat, o: Outcome) {
    if o.attempted then !o.skipped && DownloadEnds(k, !o.failed) in events
    else k < |BuildsOf(events)| && BuildsOf(events)[k] == (if o.skipped then SkipIt else BuildError) && o.failed == !o.skipped
  }

  /** Entry by entry, one call of BuildRequest each. */
  ghost predicate OnRecord(s: State, past: seq<Event>) {
    && (forall k :: 0 <= k < |s.slots| && s.slots[k].Some? ==> IsHow(past, k, s.slots[k].value))
    && (s.at.Building? ==> |BuildsOf(past)| == s.i)
    && (s.at.Decided? ==> |BuildsOf(past)| == s.i + 1 && BuildsOf(past)[s.i] == s.at.built)
    && (s.at.Acquiring? || s.at.Pacing? ==> |BuildsOf(past)| == s.i + 1)
  }

  lemma {:induction false} StaysHow(events: seq<Event>, e: Event, k: nat, o: Outcome)
    requires IsHow(events, k, o)
    ensures IsHow(events + [e], k, o)
  {
    assert (events + [e])[..|events|] == events;
  }

  lemma {:induction false} NextKeepsRecord(cfg: Config, s: State, e: Event, past: seq<Event>)
    requires OnRecord(s, past) && Next(cfg, s, e).Some?
    ensures OnRecord(Next(cfg, s, e).value, past + [e])
  {
    var s' := Next(cfg, s, e).value;
    assert (past + [e])[..|past|] == past;
    assert e in past + [e];
    forall k: nat | k < |s'.slots| && s'.slots[k].Some?
      ensures IsHow(past + [e], k, s'.slots[k].value)
    {
      if k < |s.slots| && s.slots[k] == s'.slots[k] {
        StaysHow(past, e, k, s.slots[k].value);
      }
    }
  }

  lemma {:induction false} RunKeepsRecord(cfg: Config, s: State, events: seq<Event>, past: seq<Event>)
    requires OnRecord(s, past) && Run(cfg, s, events).Some?
    ensures OnRecord(Run(cfg, s, events).value, past + events)
    decreases |events|
  {
    hide OnRecord, Next;
    if events == [] {
      assert past + [] == past;
    } else {
      NextKeepsRecord(cfg, s, events[0], past);
      RunKeepsRecord(cfg, Next(cfg, s, events[0]).value, events[1..], past + [events[0]]);
      assert past + [events[0]] + events[1..] == past + events;
    }
  }

  /** Every outcome of a run is what happened to its entry: a download that ended well is not
      a failure nor the other way round, and a skip or a build error is what BuildRequest
      returned for that entry. */
  lemma {:induction false} OutcomesAreWhatHappened(cfg: Config, events: seq<Event>, k: nat)
    requires Run(cfg, Start(cfg), events).Some?
    requires var s := Run(cfg, Start(cfg), events).value; k < |s.slots| && s.slots[k].Some?
    ensures IsHow(events, k, Run(cfg, Start(cfg), events).value.slots[k].value)
  {
    RunKeepsRecord(cfg, Start(cfg), events, []);
    assert [] + events == events;
  }
}
