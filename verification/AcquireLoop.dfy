/** youtube_source.go's acquireAndDownload: one download tried across clients, with one
    more pass over the chain on a fresh session. */
module AcquireLoop {
  import opened Common

  const MAX_CHAIN_PASSES: nat := 2

  /** The ticks of one turn of the loop. */
  const TURN: nat := 4

  /** An extraction attempt: a profile of the chain, the watch page, the attested context. */
  datatype Attempt = Profile(i: nat) | WatchPage | WebContext

  datatype Config = Config(profiles: nat, webConfigured: bool, forcedSingleWeb: bool, noFallback: bool)

  /** How a step towards a transfer went; ChainBroken stands for a dead proxy or a spent
      extraction budget, which end the chain at once. */
  datatype Extraction = Extracted | ExtractRateLimited | ChainBroken | ExtractFailed

  /** How a transfer ended. Incomplete stands for the two delivery classes another client
      may repair, Upstream for an availability or token diagnostic. */
  datatype Delivery = Complete | Incomplete | DeliveryRateLimited | Upstream | Local

  /** The outside, by the tick at which it is consulted. A rate-limited watch page stands
      for a chain whose best error is the rate limit. */
  datatype World = World(
    prepared: nat -> bool,             // the session bootstraps
    extraction: (nat, Attempt) -> Extraction,
    build: nat -> Extraction,          // selection and resolution
    refreshable: nat -> bool,          // a failure to start counts as an incomplete delivery
    delivery: nat -> Delivery,
    generation: nat -> Option<nat>,    // the identity behind a transfer, where it has one
    coolingDown: nat -> bool,
    rotates: (nat, nat) -> bool,       // RotateIdentity, given a generation, reports success
    canceledFrom: Option<nat>)
  {
    predicate Canceled(t: nat) {
      canceledFrom.Some? && canceledFrom.value <= t
    }
  }

  datatype Result = Delivered(attempt: Attempt) | Canceled | RateLimited | Terminal | Exhausted

  /** A transfer that was started: when it was acquired, and what became of it. */
  datatype Started = Started(tick: nat, pass: nat, attempt: Attempt, gen: Option<nat>, end: Delivery)

  /** An attempt that did not get as far as a transfer. */
  datatype Failed = Failed(tick: nat, pass: nat, attempt: Attempt)

  /** What the loop asked of RotateIdentity, and when. */
  datatype Rotation = NotAsked | Refused(gen: nat, tick: nat) | Granted(gen: nat, tick: nat)

  /** What a job did: its transfers and the attempts that failed to start one, the passes,
      how many transfers were of the first, and the tick of its last turn. */
  datatype Job = Job(log: seq<Started>, failed: seq<Failed>, pass: nat, first: nat, rotation: Rotation, last: nat)

  /** A recorded cause; its attempt is absent when none can be blamed. */
  datatype Cause = Cause(attempt: Option<Attempt>, pass: nat, delivered: bool, incomplete: bool)

  function All(cfg: Config): set<Attempt> {
    Chain(cfg) + {WebContext}
  }

  /** The attempts ExtractExcluding tries, profiles first. */
  function Chain(cfg: Config): set<Attempt> {
    (set i | 0 <= i < cfg.profiles :: Profile(i)) + {WatchPage}
  }

  predicate Before(a: Attempt, b: Attempt) {
    a.Profile? && (b.WatchPage? || (b.Profile? && a.i < b.i))
  }

  function BaseSkip(cfg: Config): set<Attempt> {
    if cfg.noFallback then {WatchPage} else {}
  }

  predicate SomeDelivered(causes: seq<Cause>) {
    exists k :: 0 <= k < |causes| && causes[k].delivered
  }

  /** attemptErrors.allDeliveriesIncomplete. */
  method AllDeliveriesIncomplete(causes: seq<Cause>) returns (r: bool)
    ensures r <==> SomeDelivered(causes) && forall k :: 0 <= k < |causes| && causes[k].delivered ==> causes[k].incomplete
  {
    var seen := false;
    for k := 0 to |causes|
      invariant seen <==> SomeDelivered(causes[..k])
      invariant forall j :: 0 <= j < k && causes[j].delivered ==> causes[j].incomplete
    {
      assert forall j :: 0 <= j < k ==> causes[..k + 1][j] == causes[..k][j];
      if causes[k].delivered {
        assert causes[..k + 1][k].delivered;
        if !causes[k].incomplete {
          return false;
        }
        seen := true;
      }
    }
    assert causes[..|causes|] == causes;
    return seen;
  }

  predicate SomeIncomplete(causes: seq<Cause>) {
    exists k :: 0 <= k < |causes| && causes[k].incomplete
  }

  /** attemptErrors.hasIncomplete. */
  method HasIncomplete(causes: seq<Cause>) returns (r: bool)
    ensures r <==> SomeIncomplete(causes)
  {
    for k := 0 to |causes|
      invariant forall j :: 0 <= j < k ==> !causes[j].incomplete
    {
      if causes[k].incomplete {
        return true;
      }
    }
    return false;
  }

  datatype Step = Acquired(attempt: Attempt) | Blamed(attempt: Attempt) | ChainEnded(exhausted: bool) | StopRateLimited

  // ---------- the chain ----------

  /** Whether an attempt gets as far as a transfer at a tick. */
  predicate Starts(world: World, t: nat, a: Attempt) {
    world.extraction(t, a).Extracted? && world.build(t).Extracted?
  }

  /** Whether it meets the rate limit on the way there. */
  predicate Limited(world: World, t: nat, a: Attempt) {
    || world.extraction(t, a).ExtractRateLimited?
    || (world.extraction(t, a).Extracted? && world.build(t).ExtractRateLimited?)
  }

  /** The attempts before this one are excluded or fail to extract. */
  ghost predicate FirstOf(cfg: Config, world: World, t: nat, skip: set<Attempt>, a: Attempt) {
    forall b :: b in Chain(cfg) && Before(b, a) && b !in skip ==> world.extraction(t, b).ExtractFailed?
  }

  /** A walk of the chain gets as far as this attempt. */
  ghost predicate InReach(cfg: Config, world: World, t: nat, skip: set<Attempt>, a: Attempt) {
    a in Chain(cfg) && a !in skip && world.prepared(t) && FirstOf(cfg, world, t, skip, a)
  }

  /** Why a walk of the chain comes to nothing: no session, a cancellation, an error that
      ends it, or every attempt that is not excluded fails to extract. */
  ghost predicate ChainOver(cfg: Config, world: World, t: nat, skip: set<Attempt>) {
    || !world.prepared(t) || world.Canceled(t)
    || (exists a :: InReach(cfg, world, t, skip, a) && world.extraction(t, a).ChainBroken?)
    || (forall a :: a in Chain(cfg) && a !in skip ==> world.extraction(t, a).ExtractFailed?)
  }

  /** ExtractExcluding: the first attempt not excluded that extracts. */
  method ExtractExcluding(cfg: Config, world: World, t: nat, skip: set<Attempt>) returns (r: Step)
    ensures r.Acquired? ==> InReach(cfg, world, t, skip, r.attempt) && world.extraction(t, r.attempt).Extracted?
    ensures r.StopRateLimited? ==> exists a :: InReach(cfg, world, t, skip, a) && world.extraction(t, a).ExtractRateLimited?
    ensures r.ChainEnded? ==> ChainOver(cfg, world, t, skip)
    ensures r.ChainEnded? && r.exhausted && !world.Canceled(t) ==> Chain(cfg) <= skip
    ensures !r.Blamed?
  {
    if !world.prepared(t) {
      return ChainEnded(false);
    }
    var tried := false;
    for i := 0 to cfg.profiles
      invariant !tried ==> forall j :: 0 <= j < i ==> Profile(j) in skip
      invariant forall j :: 0 <= j < i && Profile(j) !in skip ==> world.extraction(t, Profile(j)).ExtractFailed?
    {
      if Profile(i) in skip {
        continue;
      }
      tried := true;
      assert InReach(cfg, world, t, skip, Profile(i));
      match world.extraction(t, Profile(i)) {
        case Extracted => return Acquired(Profile(i));
        case ExtractRateLimited => return StopRateLimited;
        case ChainBroken => return ChainEnded(false);
        case ExtractFailed =>
      }
      if world.Canceled(t) {
        return ChainEnded(false);
      }
    }
    if WatchPage !in skip && !world.Canceled(t) {
      tried := true;
      assert InReach(cfg, world, t, skip, WatchPage);
      match world.extraction(t, WatchPage) {
        case Extracted => return Acquired(WatchPage);
        case ExtractRateLimited => return StopRateLimited;
        case _ =>
      }
    }
    return ChainEnded(!tried);
  }

  /** buildTransfer after an extraction that went well. */
  function Built(world: World, t: nat, a: Attempt): Step {
    match world.build(t)
    case Extracted => Acquired(a)
    case ExtractRateLimited => StopRateLimited
    case _ => Blamed(a)
  }

  /** Whether the attested context is tried before the chain. */
  predicate WebIsNext(cfg: Config, world: World, t: nat, skip: set<Attempt>) {
    cfg.webConfigured && !world.coolingDown(t) && WebContext !in skip
  }

  /** A turn gets as far as this attempt: the attested context where it is next, otherwise
      one of the chain. */
  ghost predicate Reached(cfg: Config, world: World, t: nat, skip: set<Attempt>, a: Attempt) {
    if a == WebContext then WebIsNext(cfg, world, t, skip)
    else !WebIsNext(cfg, world, t, skip) && InReach(cfg, world, t, skip, a)
  }

  /** It gets there, and no further: the attempt neither starts nor merely passes the turn on. */
  ghost predicate Missed(cfg: Config, world: World, t: nat, skip: set<Attempt>, a: Attempt) {
    && Reached(cfg, world, t, skip, a) && !Starts(world, t, a) && !Limited(world, t, a)
    && (a != WebContext ==> world.extraction(t, a).Extracted?)
  }

  ghost predicate LimitMet(cfg: Config, world: World, t: nat, skip: set<Attempt>) {
    exists a :: Reached(cfg, world, t, skip, a) && Limited(world, t, a)
  }

  /** A turn would find nothing to try. */
  ghost predicate NothingToTry(cfg: Config, world: World, t: nat, skip: set<Attempt>) {
    !WebIsNext(cfg, world, t, skip) && ChainOver(cfg, world, t, skip)
  }

  /** What a step says of the world at its tick. */
  ghost predicate StepOk(cfg: Config, world: World, t: nat, skip: set<Attempt>, r: Step) {
    match r
    case Acquired(a) => Reached(cfg, world, t, skip, a) && Starts(world, t, a)
    case Blamed(a) => Missed(cfg, world, t, skip, a)
    case ChainEnded(_) => NothingToTry(cfg, world, t, skip)
    case StopRateLimited => LimitMet(cfg, world, t, skip)
  }

  /** acquireNext: the attested context first, then the chain. */
  method AcquireNext(cfg: Config, world: World, t: nat, skip: set<Attempt>) returns (r: Step)
    ensures StepOk(cfg, world, t, skip, r)
  {
    if cfg.webConfigured && !world.coolingDown(t) && WebContext !in skip {
      assert Reached(cfg, world, t, skip, WebContext);
      match world.extraction(t, WebContext) {
        case Extracted => return Built(world, t, WebContext);
        case ExtractRateLimited => return StopRateLimited;
        case _ => return Blamed(WebContext);
      }
    }
    r := ExtractExcluding(cfg, world, t, skip);
    if r.Acquired? {
      assert Reached(cfg, world, t, skip, r.attempt);
      r := Built(world, t, r.attempt);
    } else if r.StopRateLimited? {
      ghost var a :| InReach(cfg, world, t, skip, a) && world.extraction(t, a).ExtractRateLimited?;
      assert Reached(cfg, world, t, skip, a) && Limited(world, t, a);
    }
  }

  /** What the contract of AcquireNext allows is one step, but for a chain that ends
      because the caller canceled. */
  lemma {:induction false} StepIsDetermined(cfg: Config, world: World, t: nat, skip: set<Attempt>, r: Step, r': Step)
    requires StepOk(cfg, world, t, skip, r) && StepOk(cfg, world, t, skip, r') && !world.Canceled(t)
    ensures r == r' || (r.ChainEnded? && r'.ChainEnded?)
  {
    forall a, b | Reached(cfg, world, t, skip, a) && Reached(cfg, world, t, skip, b)
                  && (a != WebContext ==> !world.extraction(t, a).ExtractFailed?)
                  && (b != WebContext ==> !world.extraction(t, b).ExtractFailed?)
      ensures a == b
    {
      assert a == b || a == WebContext || b == WebContext || Before(a, b) || Before(b, a);
    }
    forall a | InReach(cfg, world, t, skip, a) && !WebIsNext(cfg, world, t, skip)
      ensures Reached(cfg, world, t, skip, a)
    {
    }
  }

  // ---------- what is excluded ----------

  ghost predicate HadTransfer(log: seq<Started>, t: nat, pass: nat, a: Attempt) {
    exists k :: 0 <= k < |log| && log[k].tick < t && log[k].pass == pass && log[k].attempt == a
  }

  ghost predicate HadChainTransfer(log: seq<Started>, t: nat, pass: nat) {
    exists k :: 0 <= k < |log| && log[k].tick < t && log[k].pass == pass && log[k].attempt != WebContext
  }

  ghost predicate HadFailure(failed: seq<Failed>, t: nat, pass: nat, a: Attempt) {
    exists k :: 0 <= k < |failed| && failed[k].tick < t && failed[k].pass == pass && failed[k].attempt == a
  }

  ghost predicate HasWeb(log: seq<Started>, n: nat)
    requires n <= |log|
  {
    exists j :: 0 <= j < n && log[j].attempt == WebContext
  }

  /** The attested context was capped, and is not to be retried: it was before, or a
      cooldown was seen. */
  ghost predicate WebIsSpent(world: World, log: seq<Started>, t: nat) {
    exists k :: 0 <= k < |log| && log[k].tick < t && log[k].attempt == WebContext && (HasWeb(log, k) || world.coolingDown(log[k].tick + 2))
  }

  /** Whether an attempt is not tried any more in a pass by tick t. */
  ghost predicate Skipped(cfg: Config, world: World, log: seq<Started>, failed: seq<Failed>, t: nat, pass: nat, a: Attempt) {
    || HadFailure(failed, t, pass, a)
    || match a
       case Profile(_) => HadTransfer(log, t, pass, a)
       case WatchPage => cfg.noFallback || HadTransfer(log, t, pass, a) || (cfg.forcedSingleWeb && HadChainTransfer(log, t, pass))
       case WebContext => pass == 2 || WebIsSpent(world, log, t)
  }

  ghost function SkippedAt(cfg: Config, world: World, log: seq<Started>, failed: seq<Failed>, t: nat, pass: nat): set<Attempt> {
    set a | a in All(cfg) && Skipped(cfg, world, log, failed, t, pass, a)
  }

  /** What comes later does not bear on it. */
  lemma {:induction false} SkippedStays(cfg: Config, world: World, log: seq<Started>, failed: seq<Failed>,
                                        log': seq<Started>, failed': seq<Failed>, t: nat, pass: nat)
    requires log <= log' && failed <= failed'
    requires forall k :: |log| <= k < |log'| ==> t <= log'[k].tick
    requires forall k :: |failed| <= k < |failed'| ==> t <= failed'[k].tick
    ensures SkippedAt(cfg, world, log', failed', t, pass) == SkippedAt(cfg, world, log, failed, t, pass)
  {
    assert forall k :: 0 <= k < |log| ==> log'[k] == log[k];
    assert forall k :: 0 <= k < |failed| ==> failed'[k] == failed[k];
    forall k: nat | k <= |log|
      ensures HasWeb(log', k) <==> HasWeb(log, k)
    {
    }
    forall a
      ensures Skipped(cfg, world, log', failed', t, pass, a) <==> Skipped(cfg, world, log, failed, t, pass, a)
    {
    }
  }

  /** Nor does the time that passes when nothing happens. */
  lemma {:induction false} SkippedWaits(cfg: Config, world: World, log: seq<Started>, failed: seq<Failed>, t: nat, u: nat, pass: nat, a: Attempt)
    requires forall k :: 0 <= k < |log| ==> log[k].tick < t && log[k].tick < u
    requires forall k :: 0 <= k < |failed| ==> failed[k].tick < t && failed[k].tick < u
    ensures Skipped(cfg, world, log, failed, t, pass, a) <==> Skipped(cfg, world, log, failed, u, pass, a)
  {
  }

  // ---------- what is promised of a job ----------

  function WebTransfers(log: seq<Started>): nat {
    if log == [] then 0
    else WebTransfers(log[..|log| - 1]) + (if log[|log| - 1].attempt == WebContext then 1 else 0)
  }

  /** Outside the attested context, an attempt starts at most one transfer in a pass. */
  ghost predicate OncePerPass(log: seq<Started>) {
    forall i, j :: 0 <= i < j < |log| && log[i].attempt == log[j].attempt && log[j].attempt != WebContext ==>
      log[i].pass < log[j].pass
  }

  /** The identity behind the latest transfer that had one. */
  function LastGeneration(log: seq<Started>): nat {
    if log == [] then 0
    else if log[|log| - 1].gen.Some? then log[|log| - 1].gen.value
    else LastGeneration(log[..|log| - 1])
  }

  /** A transfer as the world has it: it could start then, and ended like this. */
  predicate Real(world: World, x: Started) {
    && Starts(world, x.tick, x.attempt)
    && x.end == world.delivery(x.tick + 1) && x.gen == world.generation(x.tick + 1)
  }

  predicate OnTime(job: Job, t: nat, pass: nat) {
    TURN <= t <= job.last && t % TURN == 0 && 1 <= pass <= job.pass
  }

  /** Everything on record is of a turn up to the last one, in order. */
  ghost predicate Timely(job: Job) {
    && (forall k :: 0 <= k < |job.log| ==> OnTime(job, job.log[k].tick, job.log[k].pass))
    && (forall j, k :: 0 <= j < k < |job.log| ==> job.log[j].tick < job.log[k].tick)
    && (forall k :: 0 <= k < |job.failed| ==> OnTime(job, job.failed[k].tick, job.failed[k].pass))
    && (forall j, k :: 0 <= j < k < |job.failed| ==> job.failed[j].tick < job.failed[k].tick)
  }

  ghost predicate ReachedBy(cfg: Config, world: World, job: Job, x: Started) {
    Reached(cfg, world, x.tick, SkippedAt(cfg, world, job.log, job.failed, x.tick, x.pass), x.attempt)
  }

  ghost predicate MissedBy(cfg: Config, world: World, job: Job, f: Failed) {
    Missed(cfg, world, f.tick, SkippedAt(cfg, world, job.log, job.failed, f.tick, f.pass), f.attempt)
  }

  /** Every transfer and every failure was of the attempt that its turn came to, given what
      was excluded by then, and went as the world had it. */
  ghost predicate Happened(cfg: Config, world: World, job: Job) {
    && (forall k {:trigger Real(world, job.log[k])} :: 0 <= k < |job.log| ==> Real(world, job.log[k]))
    && (forall k {:trigger ReachedBy(cfg, world, job, job.log[k])} :: 0 <= k < |job.log| ==> ReachedBy(cfg, world, job, job.log[k]))
    && (forall k {:trigger MissedBy(cfg, world, job, job.failed[k])} :: 0 <= k < |job.failed| ==> MissedBy(cfg, world, job, job.failed[k]))
  }

  /** Nothing on record before tick t ended the job. */
  ghost predicate WentOn(cfg: Config, world: World, job: Job, t: nat) {
    && (forall k :: 0 <= k < |job.log| && job.log[k].tick < t ==> job.log[k].end == Incomplete && !world.Canceled(job.log[k].tick + 1))
    && (forall k :: 0 <= k < |job.failed| && job.failed[k].tick < t ==> !cfg.noFallback && !world.Canceled(job.failed[k].tick))
  }

  /** The turns on record: one for each transfer, each failure and each further pass. */
  function Turns(job: Job): int {
    |job.log| + |job.failed| + job.pass - 1
  }

  predicate LastTurnTransfers(job: Job) {
    job.log != [] && job.log[|job.log| - 1].tick == job.last
  }

  predicate LastTurnFails(job: Job) {
    job.failed != [] && job.failed[|job.failed| - 1].tick == job.last
  }

  /** No turn goes by unrecorded but the last, where it comes to neither. */
  predicate AllRecorded(job: Job) {
    job.last == TURN * (Turns(job) + (if LastTurnTransfers(job) || LastTurnFails(job) then 0 else 1))
  }

  /** The bounds: once per pass for an attempt, twice in all for the attested context. */
  ghost predicate Bounded(log: seq<Started>, pass: nat) {
    1 <= pass <= MAX_CHAIN_PASSES && OncePerPass(log) && WebTransfers(log) <= 2
  }

  /** At tick t of a pass nothing was left to try. */
  ghost predicate NothingLeft(cfg: Config, world: World, job: Job, t: nat, pass: nat) {
    !world.Canceled(t) && NothingToTry(cfg, world, t, SkippedAt(cfg, world, job.log, job.failed, t, pass))
  }

  /** The first transfers are of pass 1, the rest of pass 2; in between nothing was left to
      try, and RotateIdentity, given the identity behind the latest of the former, reported
      success. */
  ghost predicate PassesOk(cfg: Config, world: World, job: Job) {
    && !cfg.noFallback && 0 < job.first <= |job.log|
    && job.rotation.Granted? && job.rotation.gen == LastGeneration(job.log[..job.first])
    && world.rotates(job.rotation.gen, job.rotation.tick) && job.rotation.tick <= job.last
    && NothingLeft(cfg, world, job, job.rotation.tick, 1)
    && (forall k :: 0 <= k < |job.log| ==> (job.log[k].pass == 1 <==> k < job.first) && (job.log[k].tick < job.rotation.tick <==> k < job.first))
    && (forall k :: 0 <= k < |job.failed| ==> (job.failed[k].pass == 1 <==> job.failed[k].tick < job.rotation.tick))
  }

  /** An incomplete delivery, or a failure that counts as one, came before the last transfer. */
  ghost predicate IncompleteBefore(world: World, job: Job) {
    |job.log| > 1 || SomeRefreshable(world, job.failed)
  }

  /** Some attempt that failed to start counts as an incomplete delivery. */
  ghost predicate SomeRefreshable(world: World, failed: seq<Failed>) {
    exists k :: 0 <= k < |failed| && world.refreshable(failed[k].tick)
  }

  /** Nothing is left to try, and no further pass is to be had: none was earned, or it was
      the last, or RotateIdentity refused. */
  ghost predicate ChainGivenUp(cfg: Config, world: World, job: Job) {
    && NothingLeft(cfg, world, job, job.last, job.pass)
    && (job.log == [] || cfg.noFallback || job.pass == MAX_CHAIN_PASSES
        || (job.rotation == Refused(LastGeneration(job.log), job.last) && !world.rotates(LastGeneration(job.log), job.last)))
  }

  /** Without fallback an incomplete transfer is the end, unless it is the attested
      context's to retry. */
  ghost predicate AloneGivenUp(cfg: Config, world: World, job: Job)
    requires LastTurnTransfers(job)
  {
    && cfg.noFallback && job.log[|job.log| - 1].end == Incomplete
    && (job.log[|job.log| - 1].attempt != WebContext || |job.log| > 1 || world.coolingDown(job.last + 2))
  }

  /** The result where the last turn was a transfer. */
  ghost predicate EndsInTransfer(cfg: Config, world: World, result: Result, job: Job)
    requires LastTurnTransfers(job)
  {
    var x := job.log[|job.log| - 1];
    match result
    case Delivered(a) => x.end == Complete && x.attempt == a
    case Canceled => x.end != Complete && world.Canceled(job.last + 1)
    case RateLimited => x.end == DeliveryRateLimited && !world.Canceled(job.last + 1)
    case Terminal => (x.end == Local || (x.end == Upstream && !IncompleteBefore(world, job))) && !world.Canceled(job.last + 1)
    // an earlier incomplete delivery is the better report
    case Exhausted => ((x.end == Upstream && IncompleteBefore(world, job)) || AloneGivenUp(cfg, world, job)) && !world.Canceled(job.last + 1)
  }

  /** The result where it was not. */
  ghost predicate EndsWithout(cfg: Config, world: World, result: Result, job: Job) {
    match result
    case Canceled => world.Canceled(job.last)
    case RateLimited =>
      !world.Canceled(job.last) && LimitMet(cfg, world, job.last, SkippedAt(cfg, world, job.log, job.failed, job.last, job.pass))
    case Exhausted => !world.Canceled(job.last) && (ChainGivenUp(cfg, world, job) || (cfg.noFallback && LastTurnFails(job)))
    case _ => false
  }

  ghost predicate Ends(cfg: Config, world: World, result: Result, job: Job) {
    if LastTurnTransfers(job) then EndsInTransfer(cfg, world, result, job) else EndsWithout(cfg, world, result, job)
  }

  /** Without fallback a second transfer follows only one by the attested context; it is by
      that context again exactly when no cooldown was armed in between. */
  ghost predicate Alone(cfg: Config, world: World, log: seq<Started>) {
    cfg.noFallback ==>
      && |log| <= 2
      && (forall k :: 0 <= k < |log| ==> log[k].tick == TURN * (k + 1) && log[k].attempt != WatchPage)
      && (forall k :: 0 <= k < |log| ==> (log[k].attempt == WebContext <==> cfg.webConfigured && !world.coolingDown(log[k].tick)))
      && (|log| == 2 ==> log[0].attempt == WebContext && !world.coolingDown(log[0].tick + 2))
  }

  /** A job that went by the rules. */
  ghost predicate Lawful(cfg: Config, world: World, job: Job) {
    && Timely(job) && AllRecorded(job)
    && Happened(cfg, world, job)
    && WentOn(cfg, world, job, job.last)
    && Bounded(job.log, job.pass)
    && (if job.pass == 2 then PassesOk(cfg, world, job) else !job.rotation.Granted?)
    && Alone(cfg, world, job.log)
  }

  /** What is promised of every job. */
  ghost predicate RunOk(cfg: Config, world: World, result: Result, job: Job) {
    Lawful(cfg, world, job) && Ends(cfg, world, result, job)
  }

  // ---------- the loop ----------

  /** The transfers so far: none ended the loop, and none can be repeated in its pass but
      the attested context's first. */
  ghost predicate LogOk(log: seq<Started>, skip: set<Attempt>, pass: nat, webRetried: bool) {
    && (forall k :: 0 <= k < |log| ==> log[k].end == Incomplete && 1 <= log[k].pass <= pass)
    && OncePerPass(log)
    && (forall k :: 0 <= k < |log| && log[k].pass == pass && log[k].attempt != WebContext ==> log[k].attempt in skip)
    && WebTransfers(log) <= 2
    && (WebContext !in skip ==> WebTransfers(log) == (if webRetried then 1 else 0))
    && (webRetried ==> log != [])
  }

  /** The recorded causes tell of a delivery exactly when there was one, of none that was
      not incomplete, and of what counts as incomplete exactly when there was that. */
  ghost predicate CausesOk(world: World, log: seq<Started>, failed: seq<Failed>, causes: seq<Cause>) {
    && (SomeDelivered(causes) <==> log != [])
    && (forall k :: 0 <= k < |causes| && causes[k].delivered ==> causes[k].incomplete)
    && (SomeIncomplete(causes) <==> log != [] || SomeRefreshable(world, failed))
  }

  /** Without fallback the loop goes round once, or twice for the attested context. */
  ghost predicate AloneOk(cfg: Config, world: World, job: Job, skip: set<Attempt>, webRetried: bool) {
    cfg.noFallback ==>
      && job.pass == 1 && WebContext !in skip && WatchPage in skip && job.failed == []
      && job.last == TURN * |job.log|
      && Alone(cfg, world, job.log)
      && (if webRetried then |job.log| == 1 && job.log[0].attempt == WebContext && !world.coolingDown(job.log[0].tick + 2) else job.log == [])
  }

  /** The record so far, with every turn a part of it. */
  ghost predicate OnRecord(cfg: Config, world: World, job: Job) {
    && 1 <= job.pass <= MAX_CHAIN_PASSES
    && Timely(job) && job.last == TURN * Turns(job)
    && Happened(cfg, world, job)
    && (if job.pass == 2 then PassesOk(cfg, world, job) else job.rotation.NotAsked?)
  }

  ghost predicate SkippedNow(cfg: Config, world: World, job: Job, a: Attempt) {
    Skipped(cfg, world, job.log, job.failed, job.last + 1, job.pass, a)
  }

  /** What the loop has in skip is what is excluded by now. */
  ghost predicate SkipIs(cfg: Config, world: World, job: Job, skip: set<Attempt>) {
    && skip <= All(cfg)
    && forall a {:trigger SkippedNow(cfg, world, job, a)} :: a in All(cfg) ==> (a in skip <==> SkippedNow(cfg, world, job, a))
  }

  /** The variables of the loop. */
  datatype Loop = Loop(skip: set<Attempt>, causes: seq<Cause>, webRetried: bool, lastGen: nat, job: Job)
  {
    ghost predicate Ok(cfg: Config, world: World) {
      && OnRecord(cfg, world, job)
      && WentOn(cfg, world, job, job.last + 1)
      && SkipIs(cfg, world, job, skip)
      && LogOk(job.log, skip, job.pass, webRetried)
      && CausesOk(world, job.log, job.failed, causes)
      && AloneOk(cfg, world, job, skip, webRetried)
      && lastGen == LastGeneration(job.log)
    }

    /** Lexicographically: a pass more, or an attempt less, or the one retry spent. */
    ghost predicate Below(cfg: Config, other: Loop) {
      || job.pass > other.job.pass
      || (job.pass == other.job.pass && AttemptsLeft(cfg, skip) < AttemptsLeft(cfg, other.skip))
      || (job.pass == other.job.pass && skip == other.skip && webRetried && !other.webRetried)
    }
  }

  ghost function AttemptsLeft(cfg: Config, skip: set<Attempt>): nat {
    |All(cfg) - skip|
  }

  lemma {:induction false} OneLessLeft(cfg: Config, skip: set<Attempt>, more: set<Attempt>, a: Attempt)
    requires a in All(cfg) && a !in skip && skip + {a} <= more
    ensures AttemptsLeft(cfg, more) < AttemptsLeft(cfg, skip)
  {
    var now, then' := All(cfg) - skip, All(cfg) - more;
    assert then' <= now - {a};
    assert now - {a} == then' + (now - {a} - then');
  }

  // ---------- one more turn on record ----------

  function Transferred(job: Job, x: Started): Job {
    job.(log := job.log + [x], last := x.tick)
  }

  function WithFailure(job: Job, f: Failed): Job {
    job.(failed := job.failed + [f], last := f.tick)
  }

  lemma {:induction false} BoundedMore(log: seq<Started>, skip: set<Attempt>, pass: nat, webRetried: bool, x: Started)
    requires LogOk(log, skip, pass, webRetried) && 1 <= pass <= MAX_CHAIN_PASSES && x.attempt !in skip && x.pass == pass
    ensures Bounded(log + [x], pass)
  {
  }

  /** What happened still did, so it is enough to look at what is new. */
  lemma {:induction false} HappenedStays(cfg: Config, world: World, job: Job, job': Job)
    requires Timely(job) && Happened(cfg, world, job) && job.log <= job'.log && job.failed <= job'.failed
    requires forall k :: |job.log| <= k < |job'.log| ==>
               job.last < job'.log[k].tick && Real(world, job'.log[k]) && ReachedBy(cfg, world, job', job'.log[k])
    requires forall k :: |job.failed| <= k < |job'.failed| ==> job.last < job'.failed[k].tick && MissedBy(cfg, world, job', job'.failed[k])
    ensures Happened(cfg, world, job')
  {
    hide SkippedAt, Reached, Missed;
    forall k: nat | k < |job.log|
      ensures job'.log[k] == job.log[k] && Real(world, job.log[k]) && ReachedBy(cfg, world, job', job.log[k])
    {
      SkippedStays(cfg, world, job.log, job.failed, job'.log, job'.failed, job.log[k].tick, job.log[k].pass);
      assert ReachedBy(cfg, world, job, job.log[k]);
    }
    forall k: nat | k < |job.failed|
      ensures job'.failed[k] == job.failed[k] && MissedBy(cfg, world, job', job.failed[k])
    {
      SkippedStays(cfg, world, job.log, job.failed, job'.log, job'.failed, job.failed[k].tick, job.failed[k].pass);
      assert MissedBy(cfg, world, job, job.failed[k]);
    }
  }

  lemma {:induction false} PassesMore(cfg: Config, world: World, job: Job, job': Job)
    requires Timely(job) && PassesOk(cfg, world, job) && job.pass == 2 && job.last <= job'.last
    requires job' == job.(log := job'.log, failed := job'.failed, last := job'.last) && job.log <= job'.log && job.failed <= job'.failed
    requires forall k :: |job.log| <= k < |job'.log| ==> job.last < job'.log[k].tick && job'.log[k].pass == 2
    requires forall k :: |job.failed| <= k < |job'.failed| ==> job.last < job'.failed[k].tick && job'.failed[k].pass == 2
    ensures PassesOk(cfg, world, job')
  {
    SkippedStays(cfg, world, job.log, job.failed, job'.log, job'.failed, job.rotation.tick, 1);
    assert job'.log[..job.first] == job.log[..job.first];
    assert forall k :: 0 <= k < |job.log| ==> job'.log[k] == job.log[k];
    assert forall k :: 0 <= k < |job.failed| ==> job'.failed[k] == job.failed[k];
  }

  lemma {:induction false} LastGenerationAppended(log: seq<Started>, x: Started)
    ensures LastGeneration(log + [x]) == if x.gen.Some? then x.gen.value else LastGeneration(log)
  {
    assert (log + [x])[..|log|] == log;
  }

  /** One more transfer was incomplete; the attempt is skipped from here on, or was the
      attested context on its first cap. */
  lemma {:induction false} IncompleteKept(log: seq<Started>, skip: set<Attempt>, pass: nat, webRetried: bool,
                                          x: Started, skip': set<Attempt>, webRetried': bool)
    requires LogOk(log, skip, pass, webRetried) && 1 <= pass
    requires x.attempt !in skip && x.pass == pass && x.end == Incomplete && skip <= skip'
    requires (x.attempt in skip' && webRetried' == webRetried && (WebContext in skip' ==> WebContext in skip || x.attempt == WebContext))
          || (x.attempt == WebContext && !webRetried && webRetried' && skip' == skip)
    ensures LogOk(log + [x], skip', pass, webRetried')
  {
    assert (log + [x])[..|log|] == log;
  }

  // ---------- what is excluded then ----------

  lemma {:induction false} NoWeb(log: seq<Started>)
    ensures WebTransfers(log) > 0 <==> HasWeb(log, |log|)
  {
    if log != [] {
      var front := log[..|log| - 1];
      NoWeb(front);
      assert forall j :: 0 <= j < |front| ==> front[j] == log[j];
    }
  }

  /** What one more transfer excludes, or one more failure. */
  lemma {:induction false} SkippedMore(cfg: Config, world: World, log: seq<Started>, failed: seq<Failed>, x: Started, pass: nat, a: Attempt)
    requires (forall k :: 0 <= k < |log| ==> log[k].tick < x.tick) && x.pass == pass
    ensures Skipped(cfg, world, log + [x], failed, x.tick + 1, pass, a)
       <==> || Skipped(cfg, world, log, failed, x.tick + 1, pass, a)
            || a in Excludes(cfg, world, x, WebTransfers(log) > 0)
  {
    var more := log + [x];
    assert more[|log|] == x;
    assert forall k :: 0 <= k < |log| ==> more[k] == log[k];
    NoWeb(log);
    forall k: nat | k <= |log|
      ensures HasWeb(more, k) <==> HasWeb(log, k)
    {
    }
  }

  lemma {:induction false} FailedMore(cfg: Config, world: World, log: seq<Started>, failed: seq<Failed>, f: Failed, pass: nat, a: Attempt)
    requires f.pass == pass
    ensures Skipped(cfg, world, log, failed + [f], f.tick + 1, pass, a)
       <==> Skipped(cfg, world, log, failed, f.tick + 1, pass, a) || a == f.attempt
  {
    var more := failed + [f];
    assert more[|failed|] == f;
    assert forall k :: 0 <= k < |failed| ==> more[k] == failed[k];
  }

  /** What a transfer that was incomplete adds. */
  function Excludes(cfg: Config, world: World, x: Started, webRetried: bool): set<Attempt> {
    if x.attempt == WebContext then (if webRetried || world.coolingDown(x.tick + 2) then {WebContext} else {})
    else if cfg.forcedSingleWeb then {x.attempt, WatchPage}
    else {x.attempt}
  }

  lemma {:induction false} SkipTransfer(cfg: Config, world: World, job: Job, skip: set<Attempt>, webRetried: bool, x: Started)
    requires Timely(job) && SkipIs(cfg, world, job, skip) && x.pass == job.pass && job.last < x.tick && x.attempt in All(cfg)
    requires x.attempt == WebContext ==> WebTransfers(job.log) == if webRetried then 1 else 0
    ensures SkipIs(cfg, world, Transferred(job, x), skip + Excludes(cfg, world, x, webRetried))
  {
    hide Skipped;
    var job' := Transferred(job, x);
    assert WatchPage in All(cfg);
    forall a | a in All(cfg)
      ensures a in skip + Excludes(cfg, world, x, webRetried) <==> SkippedNow(cfg, world, job', a)
    {
      SkippedWaits(cfg, world, job.log, job.failed, job.last + 1, x.tick + 1, job.pass, a);
      SkippedMore(cfg, world, job.log, job.failed, x, job.pass, a);
      assert a in skip <==> SkippedNow(cfg, world, job, a);
    }
  }

  lemma {:induction false} SkipFailure(cfg: Config, world: World, job: Job, skip: set<Attempt>, f: Failed)
    requires Timely(job) && SkipIs(cfg, world, job, skip) && f.pass == job.pass && job.last < f.tick && f.attempt in All(cfg)
    ensures SkipIs(cfg, world, WithFailure(job, f), skip + {f.attempt})
  {
    hide Skipped;
    var job' := WithFailure(job, f);
    forall a | a in All(cfg)
      ensures a in skip + {f.attempt} <==> SkippedNow(cfg, world, job', a)
    {
      SkippedWaits(cfg, world, job.log, job.failed, job.last + 1, f.tick + 1, job.pass, a);
      FailedMore(cfg, world, job.log, job.failed, f, job.pass, a);
      assert a in skip <==> SkippedNow(cfg, world, job, a);
    }
  }

  /** At the next turn it is what the loop has in skip. */
  lemma {:induction false} SkipAtTurn(cfg: Config, world: World, job: Job, skip: set<Attempt>)
    requires Timely(job) && SkipIs(cfg, world, job, skip)
    ensures skip == SkippedAt(cfg, world, job.log, job.failed, job.last + TURN, job.pass)
  {
    forall a | a in All(cfg)
      ensures a in skip <==> Skipped(cfg, world, job.log, job.failed, job.last + TURN, job.pass, a)
    {
      SkippedWaits(cfg, world, job.log, job.failed, job.last + 1, job.last + TURN, job.pass, a);
      assert a in skip <==> SkippedNow(cfg, world, job, a);
    }
  }

  // ---------- the causes ----------

  lemma {:induction false} CauseOfFailure(world: World, log: seq<Started>, failed: seq<Failed>, causes: seq<Cause>, f: Failed, a: Attempt)
    requires CausesOk(world, log, failed, causes)
    ensures CausesOk(world, log, failed + [f], causes + [Cause(Some(a), f.pass, false, world.refreshable(f.tick))])
  {
    var c := Cause(Some(a), f.pass, false, world.refreshable(f.tick));
    OneMoreCause(causes, c);
    SameRefreshable(world, failed, f);
  }

  lemma {:induction false} OneMoreCause(causes: seq<Cause>, c: Cause)
    ensures SomeDelivered(causes + [c]) <==> SomeDelivered(causes) || c.delivered
    ensures SomeIncomplete(causes + [c]) <==> SomeIncomplete(causes) || c.incomplete
  {
    var more := causes + [c];
    assert more[|causes|] == c;
    assert forall k :: 0 <= k < |causes| ==> more[k] == causes[k];
  }

  lemma {:induction false} SameRefreshable(world: World, failed: seq<Failed>, f: Failed)
    ensures SomeRefreshable(world, failed + [f]) <==> SomeRefreshable(world, failed) || world.refreshable(f.tick)
  {
    var more := failed + [f];
    assert more[|failed|] == f;
    assert forall k :: 0 <= k < |failed| ==> more[k] == failed[k];
  }

  /** The causes after an incomplete transfer: a second cap of the attested context is not
      recorded twice. */
  function CausesAfter(s: Loop, x: Started): seq<Cause> {
    if x.attempt != WebContext || !s.webRetried then s.causes + [Cause(Some(x.attempt), s.job.pass, true, true)] else s.causes
  }

  lemma {:induction false} CausesAfterOk(world: World, s: Loop, x: Started)
    requires CausesOk(world, s.job.log, s.job.failed, s.causes) && (s.webRetried ==> s.job.log != [])
    ensures CausesOk(world, s.job.log + [x], s.job.failed, CausesAfter(s, x))
  {
    if x.attempt != WebContext || !s.webRetried {
      OneMoreCause(s.causes, Cause(Some(x.attempt), s.job.pass, true, true));
    }
  }

  // ---------- the turns ----------

  /** A transfer the next turn may start. */
  ghost predicate Startable(cfg: Config, world: World, x: Started, job: Job, skip: set<Attempt>) {
    && Real(world, x) && Reached(cfg, world, x.tick, skip, x.attempt)
    && x.pass == job.pass && x.tick == job.last + TURN
  }

  lemma {:induction false} AloneMore(cfg: Config, world: World, x: Started, s: Loop)
    requires AloneOk(cfg, world, s.job, s.skip, s.webRetried) && Startable(cfg, world, x, s.job, s.skip)
    ensures Alone(cfg, world, s.job.log + [x])
  {
  }

  lemma {:induction false} RecordTransfer(cfg: Config, world: World, x: Started, job: Job, skip: set<Attempt>)
    requires OnRecord(cfg, world, job) && SkipIs(cfg, world, job, skip) && Startable(cfg, world, x, job, skip)
    ensures OnRecord(cfg, world, Transferred(job, x))
  {
    hide SkippedAt, Reached, SkipIs, Real;
    var job' := Transferred(job, x);
    SkipAtTurn(cfg, world, job, skip);
    SkippedStays(cfg, world, job.log, job.failed, job'.log, job'.failed, x.tick, x.pass);
    HappenedStays(cfg, world, job, job');
    if job.pass == 2 {
      PassesMore(cfg, world, job, job');
    }
  }

  /** What did not end the job did not, whatever comes behind it by t without ending it either. */
  lemma {:induction false} WentOnStays(cfg: Config, world: World, job: Job, job': Job, t: nat)
    requires Timely(job) && WentOn(cfg, world, job, job.last + 1) && job.log <= job'.log && job.failed <= job'.failed
    requires forall k :: |job.log| <= k < |job'.log| && job'.log[k].tick < t ==>
               job'.log[k].end == Incomplete && !world.Canceled(job'.log[k].tick + 1)
    requires forall k :: |job.failed| <= k < |job'.failed| && job'.failed[k].tick < t ==>
               !cfg.noFallback && !world.Canceled(job'.failed[k].tick)
    ensures WentOn(cfg, world, job', t)
  {
    assert forall k :: 0 <= k < |job.log| ==> job'.log[k] == job.log[k];
    assert forall k :: 0 <= k < |job.failed| ==> job'.failed[k] == job.failed[k];
  }

  /** Whatever is reported after a transfer, the job went by the rules. */
  lemma {:induction false} TransferLawful(cfg: Config, world: World, x: Started, s: Loop)
    requires s.Ok(cfg, world) && Startable(cfg, world, x, s.job, s.skip)
    ensures Lawful(cfg, world, Transferred(s.job, x)) && LastTurnTransfers(Transferred(s.job, x))
  {
    hide Happened, PassesOk, WentOn, SkipIs, Timely, LogOk, CausesOk, AloneOk, Alone, Bounded, Real, Reached;
    RecordTransfer(cfg, world, x, s.job, s.skip);
    WentOnStays(cfg, world, s.job, Transferred(s.job, x), x.tick);
    ReachedIsNotSkipped(cfg, world, x.tick, s.skip, x.attempt);
    BoundedMore(s.job.log, s.skip, s.job.pass, s.webRetried, x);
    AloneMore(cfg, world, x, s);
    RecordIsLawful(cfg, world, Transferred(s.job, x));
  }

  lemma {:induction false} RecordIsLawful(cfg: Config, world: World, job: Job)
    requires OnRecord(cfg, world, job) && WentOn(cfg, world, job, job.last) && Bounded(job.log, job.pass) && Alone(cfg, world, job.log)
    requires LastTurnTransfers(job) || LastTurnFails(job)
    ensures Lawful(cfg, world, job)
  {
  }

  lemma {:induction false} ReachedIsNotSkipped(cfg: Config, world: World, t: nat, skip: set<Attempt>, a: Attempt)
    requires Reached(cfg, world, t, skip, a)
    ensures a in All(cfg) && a !in skip
  {
  }

  /** The job as a turn leaves it that came to neither a transfer nor a failure. */
  ghost predicate Idled(job: Job, job': Job) {
    && job' == job.(rotation := job'.rotation, last := job.last + TURN)
    && (if job.pass == 2 then job'.rotation == job.rotation else !job'.rotation.Granted?)
  }

  lemma {:induction false} IdleLawful(cfg: Config, world: World, s: Loop, job: Job)
    requires s.Ok(cfg, world) && Idled(s.job, job)
    ensures Lawful(cfg, world, job) && !LastTurnTransfers(job) && !LastTurnFails(job)
    ensures s.skip == SkippedAt(cfg, world, job.log, job.failed, job.last, job.pass)
  {
    hide SkipIs, LogOk, CausesOk, PassesOk, SkippedAt, WentOn, Happened, AloneOk, Alone, Bounded, SomeDelivered, SomeIncomplete, SomeRefreshable;
    SkipAtTurn(cfg, world, s.job, s.skip);
    HappenedStays(cfg, world, s.job, job);
    WentOnStays(cfg, world, s.job, job, job.last);
    if s.job.pass == 2 {
      PassesMore(cfg, world, s.job, job);
    }
    WhatIsKnown(cfg, world, s);
  }

  /** What the loop's variables tell a caller. */
  lemma {:induction false} WhatIsKnown(cfg: Config, world: World, s: Loop)
    requires s.Ok(cfg, world)
    ensures 1 <= s.job.pass <= MAX_CHAIN_PASSES && (s.job.pass == 1 ==> s.job.rotation.NotAsked?)
    ensures SomeDelivered(s.causes) <==> s.job.log != []
    ensures forall k :: 0 <= k < |s.causes| && s.causes[k].delivered ==> s.causes[k].incomplete
    ensures SomeIncomplete(s.causes) <==> s.job.log != [] || SomeRefreshable(world, s.job.failed)
    ensures cfg.noFallback && s.webRetried ==> s.job.log != []
    ensures s.lastGen == LastGeneration(s.job.log)
    ensures Bounded(s.job.log, s.job.pass) && Alone(cfg, world, s.job.log)
  {
  }

  /** The end of the chain: nextPass grants one more, on a fresh session, or the job is over. */
  method NextPass(cfg: Config, world: World, t: nat, s: Loop) returns (more: bool, s': Loop)
    requires s.Ok(cfg, world) && t == s.job.last + TURN && !world.Canceled(t) && NothingToTry(cfg, world, t, s.skip)
    ensures more ==> s'.Ok(cfg, world) && s'.Below(cfg, s) && s'.job.rotation == Granted(s.lastGen, t) && world.rotates(s.lastGen, t)
    ensures !more ==> RunOk(cfg, world, Exhausted, s'.job)
    ensures more <==> s.job.pass < MAX_CHAIN_PASSES && !cfg.noFallback && s.job.log != [] && world.rotates(s.lastGen, t)
    ensures s'.job.last == t && s'.job.log == s.job.log && s'.job.failed == s.job.failed
  {
    hide Loop.Ok, Lawful, NothingToTry, SkippedAt;
    var again := AllDeliveriesIncomplete(s.causes);
    WhatIsKnown(cfg, world, s);
    if s.job.pass < MAX_CHAIN_PASSES && !cfg.noFallback && again {
      if world.rotates(s.lastGen, t) {
        s' := s.(skip := BaseSkip(cfg) + {WebContext}, job := OnPassTwo(s.job, s.lastGen, t));
        PassKept(cfg, world, s, t);
        return true, s';
      }
      s' := s.(job := s.job.(rotation := Refused(s.lastGen, t), last := t));
      IdleLawful(cfg, world, s, s'.job);
      return false, s';
    }
    s' := s.(job := s.job.(last := t));
    IdleLawful(cfg, world, s, s'.job);
    return false, s';
  }

  /** The job on a pass that was granted. */
  function OnPassTwo(job: Job, gen: nat, t: nat): Job {
    job.(pass := 2, first := |job.log|, rotation := Granted(gen, t), last := t)
  }

  lemma {:induction false} PassGranted(cfg: Config, world: World, job: Job, skip: set<Attempt>, t: nat)
    requires OnRecord(cfg, world, job) && SkipIs(cfg, world, job, skip) && t == job.last + TURN && job.pass == 1
    requires !cfg.noFallback && job.log != [] && world.rotates(LastGeneration(job.log), t)
    requires !world.Canceled(t) && NothingToTry(cfg, world, t, skip)
    ensures PassesOk(cfg, world, OnPassTwo(job, LastGeneration(job.log), t))
  {
    SkipAtTurn(cfg, world, job, skip);
    assert job.log[..|job.log|] == job.log;
  }

  lemma {:induction false} PassKept(cfg: Config, world: World, s: Loop, t: nat)
    requires s.Ok(cfg, world) && t == s.job.last + TURN && s.job.pass == 1 && !cfg.noFallback && s.job.log != [] && world.rotates(s.lastGen, t)
    requires !world.Canceled(t) && NothingToTry(cfg, world, t, s.skip)
    ensures s.(skip := BaseSkip(cfg) + {WebContext}, job := OnPassTwo(s.job, s.lastGen, t)).Ok(cfg, world)
  {
    hide SkipIs, CausesOk, SkippedAt, WentOn, Happened, PassesOk, NothingToTry;
    var job' := OnPassTwo(s.job, s.lastGen, t);
    PassGranted(cfg, world, s.job, s.skip, t);
    HappenedStays(cfg, world, s.job, job');
    WentOnStays(cfg, world, s.job, job', t + 1);
    FreshPass(cfg, world, job');
  }

  /** A pass begins with nothing excluded but what always is. */
  lemma {:induction false} FreshPass(cfg: Config, world: World, job: Job)
    requires job.log == [] || job.pass == 2
    requires forall k :: 0 <= k < |job.log| ==> job.log[k].pass != job.pass
    requires forall k :: 0 <= k < |job.failed| ==> job.failed[k].pass != job.pass
    ensures SkipIs(cfg, world, job, BaseSkip(cfg) + (if job.pass == 2 then {WebContext} else {}))
  {
    assert WatchPage in All(cfg) && WebContext in All(cfg);
  }

  /** No transfer was acquired. */
  method AfterFailure(cfg: Config, world: World, t: nat, next: Step, s: Loop) returns (result: Option<Result>, s': Loop)
    requires s.Ok(cfg, world) && t == s.job.last + TURN && !next.Acquired? && StepOk(cfg, world, t, s.skip, next)
    ensures result.None? ==> s'.Ok(cfg, world) && s'.Below(cfg, s) && s'.job.last == t
    ensures result.Some? ==> RunOk(cfg, world, result.value, s'.job)
  {
    hide Loop.Ok, Lawful, NothingToTry, LimitMet, Missed, ChainGivenUp;
    s' := s.(job := s.job.(last := t));
    WhatIsKnown(cfg, world, s);
    if world.Canceled(t) {
      IdleLawful(cfg, world, s, s'.job);
      return Some(Canceled), s';
    }
    if next.StopRateLimited? {
      IdleLawful(cfg, world, s, s'.job);
      return Some(RateLimited), s';
    }
    if next.ChainEnded? {
      s' := s;
      if !next.exhausted {
        var c := Cause(None, s.job.pass, false, world.refreshable(t));
        ChainEndCaused(cfg, world, s, c);
        s' := if s.job.log != [] then s.(causes := s.causes + [c]) else s;
      }
      var more;
      more, s' := NextPass(cfg, world, t, s');
      return if more then None else Some(Exhausted), s';
    }
    result, s' := AfterBlame(cfg, world, t, next.attempt, s);
  }

  /** The chain's own error is recorded; it only bears on what follows if there was a delivery. */
  lemma {:induction false} ChainEndCaused(cfg: Config, world: World, s: Loop, c: Cause)
    requires s.Ok(cfg, world) && !c.delivered
    ensures s.job.log != [] ==> s.(causes := s.causes + [c]).Ok(cfg, world)
  {
    if s.job.log != [] {
      hide OnRecord, WentOn, SkipIs, LogOk, AloneOk;
      OneMoreCause(s.causes, c);
    }
  }

  /** An attempt that can be blamed did not start. */
  method AfterBlame(cfg: Config, world: World, t: nat, a: Attempt, s: Loop) returns (result: Option<Result>, s': Loop)
    requires s.Ok(cfg, world) && t == s.job.last + TURN && Missed(cfg, world, t, s.skip, a) && !world.Canceled(t)
    ensures result.None? ==> s'.Ok(cfg, world) && s'.Below(cfg, s) && s'.job.last == t
    ensures result.Some? ==> RunOk(cfg, world, result.value, s'.job)
  {
    hide Loop.Ok, Lawful, Missed;
    var f := Failed(t, s.job.pass, a);
    var c := Cause(Some(a), s.job.pass, false, world.refreshable(t));
    if cfg.noFallback {
      BlameLawful(cfg, world, s, f);
      return Some(Exhausted), s.(job := WithFailure(s.job, f));
    }
    BlameKept(cfg, world, s, f);
    return None, s.(causes := s.causes + [c], skip := s.skip + {a}, job := WithFailure(s.job, f));
  }

  lemma {:induction false} RecordFailure(cfg: Config, world: World, job: Job, skip: set<Attempt>, f: Failed)
    requires OnRecord(cfg, world, job) && SkipIs(cfg, world, job, skip)
    requires f.tick == job.last + TURN && f.pass == job.pass && Missed(cfg, world, f.tick, skip, f.attempt)
    ensures OnRecord(cfg, world, WithFailure(job, f))
  {
    hide SkippedAt, Missed, SkipIs;
    var job' := WithFailure(job, f);
    SkipAtTurn(cfg, world, job, skip);
    SkippedStays(cfg, world, job.log, job.failed, job'.log, job'.failed, f.tick, f.pass);
    HappenedStays(cfg, world, job, job');
    if job.pass == 2 {
      PassesMore(cfg, world, job, job');
    }
  }

  lemma {:induction false} BlameLawful(cfg: Config, world: World, s: Loop, f: Failed)
    requires s.Ok(cfg, world) && f.tick == s.job.last + TURN && f.pass == s.job.pass && Missed(cfg, world, f.tick, s.skip, f.attempt)
    requires cfg.noFallback
    ensures Lawful(cfg, world, WithFailure(s.job, f)) && LastTurnFails(WithFailure(s.job, f)) && !LastTurnTransfers(WithFailure(s.job, f))
  {
    hide Happened, PassesOk, SkipIs, CausesOk, Reached, Missed, SkippedAt;
    RecordFailure(cfg, world, s.job, s.skip, f);
    WentOnStays(cfg, world, s.job, WithFailure(s.job, f), f.tick);
    RecordIsLawful(cfg, world, WithFailure(s.job, f));
  }

  lemma {:induction false} MoreSkipped(log: seq<Started>, skip: set<Attempt>, pass: nat, webRetried: bool, more: set<Attempt>)
    requires LogOk(log, skip, pass, webRetried) && skip <= more
    ensures LogOk(log, more, pass, webRetried)
  {
  }

  lemma {:induction false} BlameKept(cfg: Config, world: World, s: Loop, f: Failed)
    requires s.Ok(cfg, world) && f.tick == s.job.last + TURN && f.pass == s.job.pass && Missed(cfg, world, f.tick, s.skip, f.attempt)
    requires !cfg.noFallback && !world.Canceled(f.tick)
    ensures s.(causes := s.causes + [Cause(Some(f.attempt), f.pass, false, world.refreshable(f.tick))],
               skip := s.skip + {f.attempt}, job := WithFailure(s.job, f)).Ok(cfg, world)
    ensures AttemptsLeft(cfg, s.skip + {f.attempt}) < AttemptsLeft(cfg, s.skip)
  {
    hide Happened, WentOn, PassesOk, Timely, LogOk, SkipIs, CausesOk;
    RecordFailure(cfg, world, s.job, s.skip, f);
    WentOnStays(cfg, world, s.job, WithFailure(s.job, f), f.tick + 1);
    ReachedIsNotSkipped(cfg, world, f.tick, s.skip, f.attempt);
    OneLessLeft(cfg, s.skip, s.skip + {f.attempt}, f.attempt);
    SkipFailure(cfg, world, s.job, s.skip, f);
    MoreSkipped(s.job.log, s.skip, s.job.pass, s.webRetried, s.skip + {f.attempt});
    CauseOfFailure(world, s.job.log, s.job.failed, s.causes, f, f.attempt);
  }

  /** A transfer was started, and ended. */
  method AfterTransfer(cfg: Config, world: World, x: Started, s: Loop) returns (result: Option<Result>, s': Loop)
    requires s.Ok(cfg, world) && Startable(cfg, world, x, s.job, s.skip)
    ensures result.None? ==> s'.Ok(cfg, world) && s'.Below(cfg, s) && s'.job.last == x.tick
    ensures result.Some? ==> RunOk(cfg, world, result.value, s'.job)
  {
    hide Loop.Ok, Lawful, Startable, CausesOk, SomeIncomplete, SomeDelivered;
    var kept := HasIncomplete(s.causes);
    if x.end == Incomplete && !world.Canceled(x.tick + 1) {
      result, s' := AfterIncomplete(cfg, world, x, s);
      return;
    }
    var end := if x.end == Complete then Delivered(x.attempt)
      else if world.Canceled(x.tick + 1) then Canceled
      else if x.end == DeliveryRateLimited then RateLimited
      // an earlier incomplete delivery is the better report
      else if x.end == Upstream && kept then Exhausted
      else Terminal;
    TransferLawful(cfg, world, x, s);
    WhatIsKnown(cfg, world, s);
    return Some(end), s.(job := Transferred(s.job, x));
  }

  /** The variables after an incomplete transfer. */
  function GoneOn(x: Started, s: Loop, skip: set<Attempt>, webRetried: bool): Loop {
    Loop(skip, CausesAfter(s, x), webRetried, if x.gen.Some? then x.gen.value else s.lastGen, Transferred(s.job, x))
  }

  lemma {:induction false} ContinueOk(cfg: Config, world: World, x: Started, s: Loop, skip: set<Attempt>, webRetried: bool)
    requires s.Ok(cfg, world) && Startable(cfg, world, x, s.job, s.skip) && x.end == Incomplete && !world.Canceled(x.tick + 1)
    requires skip == s.skip + Excludes(cfg, world, x, s.webRetried)
    requires LogOk(s.job.log + [x], skip, s.job.pass, webRetried)
    requires AloneOk(cfg, world, Transferred(s.job, x), skip, webRetried)
    ensures GoneOn(x, s, skip, webRetried).Ok(cfg, world)
  {
    hide Happened, PassesOk, WentOn, SkipIs, Timely, CausesOk, AloneOk, Alone, Bounded, Real, Reached, Excludes;
    RecordTransfer(cfg, world, x, s.job, s.skip);
    WentOnStays(cfg, world, s.job, Transferred(s.job, x), x.tick + 1);
    ReachedIsNotSkipped(cfg, world, x.tick, s.skip, x.attempt);
    SkipTransfer(cfg, world, s.job, s.skip, s.webRetried, x);
    CausesAfterOk(world, s, x);
    LastGenerationAppended(s.job.log, x);
  }

  lemma {:induction false} GoneOnBooks(cfg: Config, world: World, x: Started, s: Loop, skip: set<Attempt>, webRetried: bool)
    requires LogOk(s.job.log, s.skip, s.job.pass, s.webRetried) && AloneOk(cfg, world, s.job, s.skip, s.webRetried) && 1 <= s.job.pass
    requires Startable(cfg, world, x, s.job, s.skip) && x.end == Incomplete
    requires (x.attempt in skip && skip == s.skip + Excludes(cfg, world, x, s.webRetried) && webRetried == s.webRetried && !cfg.noFallback)
          || (x.attempt == WebContext && !s.webRetried && webRetried && skip == s.skip && !world.coolingDown(x.tick + 2))
    ensures LogOk(s.job.log + [x], skip, s.job.pass, webRetried)
    ensures AloneOk(cfg, world, Transferred(s.job, x), skip, webRetried)
  {
    ReachedIsNotSkipped(cfg, world, x.tick, s.skip, x.attempt);
    IncompleteKept(s.job.log, s.skip, s.job.pass, s.webRetried, x, skip, webRetried);
    AloneMore(cfg, world, x, s);
  }

  /** The attested context's first cap: the same attempt once more. */
  lemma {:induction false} RetryOk(cfg: Config, world: World, x: Started, s: Loop)
    requires s.Ok(cfg, world) && Startable(cfg, world, x, s.job, s.skip) && x.end == Incomplete && !world.Canceled(x.tick + 1)
    requires x.attempt == WebContext && !s.webRetried && !world.coolingDown(x.tick + 2)
    ensures GoneOn(x, s, s.skip, true).Ok(cfg, world)
  {
    assert s.skip == s.skip + Excludes(cfg, world, x, s.webRetried);
    GoneOnBooks(cfg, world, x, s, s.skip, true);
    ContinueOk(cfg, world, x, s, s.skip, true);
  }

  /** The attempt is excluded; the watch page is WEB too, so it is no distinct retry of a
      forced WEB client. */
  lemma {:induction false} SkipAndGoOn(cfg: Config, world: World, x: Started, s: Loop, skip: set<Attempt>)
    requires s.Ok(cfg, world) && Startable(cfg, world, x, s.job, s.skip) && x.end == Incomplete && !cfg.noFallback && !world.Canceled(x.tick + 1)
    requires x.attempt == WebContext ==> s.webRetried || world.coolingDown(x.tick + 2)
    requires skip == s.skip + {x.attempt} + (if cfg.forcedSingleWeb && x.attempt != WebContext then {WatchPage} else {})
    ensures GoneOn(x, s, skip, s.webRetried).Ok(cfg, world)
    ensures AttemptsLeft(cfg, skip) < AttemptsLeft(cfg, s.skip)
  {
    assert skip == s.skip + Excludes(cfg, world, x, s.webRetried);
    GoneOnBooks(cfg, world, x, s, skip, s.webRetried);
    ContinueOk(cfg, world, x, s, skip, s.webRetried);
    ReachedIsNotSkipped(cfg, world, x.tick, s.skip, x.attempt);
    OneLessLeft(cfg, s.skip, skip, x.attempt);
  }

  /** A transfer ended incomplete. */
  method AfterIncomplete(cfg: Config, world: World, x: Started, s: Loop) returns (result: Option<Result>, s': Loop)
    requires s.Ok(cfg, world) && Startable(cfg, world, x, s.job, s.skip) && x.end == Incomplete && !world.Canceled(x.tick + 1)
    ensures result.None? ==> s'.Ok(cfg, world) && s'.Below(cfg, s) && s'.job.last == x.tick
    ensures result.Some? ==> RunOk(cfg, world, result.value, s'.job)
  {
    hide Loop.Ok, Lawful, Startable;
    if x.attempt == WebContext && !s.webRetried && !world.coolingDown(x.tick + 2) {
      RetryOk(cfg, world, x, s);
      return None, GoneOn(x, s, s.skip, true);
    }
    if cfg.noFallback {
      TransferLawful(cfg, world, x, s);
      WhatIsKnown(cfg, world, s);
      return Some(Exhausted), GoneOn(x, s, s.skip, s.webRetried);
    }
    var skip := s.skip + {x.attempt} + (if cfg.forcedSingleWeb && x.attempt != WebContext then {WatchPage} else {});
    SkipAndGoOn(cfg, world, x, s, skip);
    return None, GoneOn(x, s, skip, s.webRetried);
  }

  const NoJob: Job := Job([], [], 1, 0, NotAsked, 0)

  lemma {:induction false} NothingOnRecord(cfg: Config, world: World)
    ensures OnRecord(cfg, world, NoJob) && WentOn(cfg, world, NoJob, NoJob.last + 1)
  {
  }

  lemma {:induction false} StartOk(cfg: Config, world: World)
    ensures Loop(BaseSkip(cfg), [], false, 0, NoJob).Ok(cfg, world)
  {
    hide OnRecord, WentOn, SkipIs;
    NothingOnRecord(cfg, world);
    FreshPass(cfg, world, NoJob);
    assert BaseSkip(cfg) + {} == BaseSkip(cfg);
  }

  /** One turn of the loop. */
  method Turn(cfg: Config, world: World, s: Loop) returns (result: Option<Result>, s': Loop)
    requires s.Ok(cfg, world)
    ensures result.None? ==> s'.Ok(cfg, world) && s'.Below(cfg, s)
    ensures result.Some? ==> RunOk(cfg, world, result.value, s'.job)
  {
    hide Loop.Ok, Loop.Below, RunOk, Reached, Missed, NothingToTry, LimitMet;
    var t := s.job.last + TURN;
    var next := AcquireNext(cfg, world, t, s.skip);
    if next.Acquired? {
      result, s' := AfterTransfer(cfg, world, Started(t, s.job.pass, next.attempt, world.generation(t + 1), world.delivery(t + 1)), s);
    } else {
      result, s' := AfterFailure(cfg, world, t, next, s);
    }
  }

  /** acquireAndDownload. */
  method AcquireAndDownload(cfg: Config, world: World) returns (result: Result, job: Job)
    ensures RunOk(cfg, world, result, job)
  {
    hide Loop.Ok, RunOk;
    var s := Loop(BaseSkip(cfg), [], false, 0, NoJob);
    StartOk(cfg, world);
    var ended: Option<Result> := None;
    while ended.None?
      invariant if ended.None? then s.Ok(cfg, world) else RunOk(cfg, world, ended.value, s.job)
      decreases ended.None?, MAX_CHAIN_PASSES - s.job.pass, AttemptsLeft(cfg, s.skip), if s.webRetried then 0 else 1
    {
      WhatIsKnown(cfg, world, s);
      ended, s := Turn(cfg, world, s);
      if ended.None? {
        WhatIsKnown(cfg, world, s);
      }
    }
    return ended.value, s.job;
  }

  // ---------- without fallback ----------

  /** Everything works but the deliveries, which are incomplete; a sibling arms the cooldown
      between the two looks at it. */
  const SIBLING_ARMS_COOLDOWN: World := World(
    t => true, (t, a) => Extracted, t => Extracted, t => false, t => Incomplete, t => None, t => t >= 7, (g, t) => false, None)

  const ONE_PROFILE: Config := Config(1, true, false, true)

  /** The attested context goes first and the profile second, and the profile is there to be
      tried until it has had a transfer. */
  lemma {:induction false} WebThenProfile(job: Job)
    requires Lawful(ONE_PROFILE, SIBLING_ARMS_COOLDOWN, job)
    ensures forall k :: 0 <= k < |job.log| ==> job.log[k].end == Incomplete && job.log[k].tick == TURN * (k + 1)
    ensures |job.log| >= 1 ==> job.log[0].attempt == WebContext
    ensures |job.log| == 2 ==> job.log[1].attempt == Profile(0)
    ensures job.failed == []
    ensures forall t, pass :: NothingLeft(ONE_PROFILE, SIBLING_ARMS_COOLDOWN, job, t, pass) ==> HadTransfer(job.log, t, pass, Profile(0))
  {
    var cfg, world := ONE_PROFILE, SIBLING_ARMS_COOLDOWN;
    assert forall k :: 0 <= k < |job.log| ==> Real(world, job.log[k]) && ReachedBy(cfg, world, job, job.log[k]);
    assert |job.failed| > 0 ==> MissedBy(cfg, world, job, job.failed[0]);
    forall t: nat, pass: nat | NothingLeft(cfg, world, job, t, pass)
      ensures HadTransfer(job.log, t, pass, Profile(0))
    {
      assert Profile(0) in Chain(cfg) && world.extraction(t, Profile(0)).Extracted?;
      assert Profile(0) in SkippedAt(cfg, world, job.log, job.failed, t, pass);
    }
  }

  /** The retry that is meant to be no client switch is made by another client. */
  method RetrySwitchesClient() returns (job: Job)
    ensures |job.log| == 2 && job.log[0].attempt == WebContext && job.log[1].attempt == Profile(0)
  {
    var result;
    result, job := AcquireAndDownload(ONE_PROFILE, SIBLING_ARMS_COOLDOWN);
    // the first transfer is not the last: its cap is retried, no cooldown being seen
    WebThenProfile(job);
  }

  // ---------- the record tells the result ----------

  lemma {:induction false} LastFailure(cfg: Config, world: World, job: Job)
    requires Lawful(cfg, world, job) && cfg.noFallback && LastTurnFails(job)
    ensures var f := job.failed[|job.failed| - 1];
            Missed(cfg, world, job.last, SkippedAt(cfg, world, job.log, job.failed, job.last, job.pass), f.attempt)
  {
    assert MissedBy(cfg, world, job, job.failed[|job.failed| - 1]);
  }

  /** A job's record allows one result only: what happened is what must be reported. */
  lemma {:induction false} OneResult(cfg: Config, world: World, job: Job, r: Result, r': Result)
    requires RunOk(cfg, world, r, job) && RunOk(cfg, world, r', job)
    ensures r == r'
  {
    hide Lawful, LimitMet, NothingToTry, Missed;
    if !LastTurnTransfers(job) && !world.Canceled(job.last) && r != r' {
      var skip := SkippedAt(cfg, world, job.log, job.failed, job.last, job.pass);
      if cfg.noFallback && LastTurnFails(job) {
        LastFailure(cfg, world, job);
        StepIsDetermined(cfg, world, job.last, skip, StopRateLimited, Blamed(job.failed[|job.failed| - 1].attempt));
      } else {
        StepIsDetermined(cfg, world, job.last, skip, StopRateLimited, ChainEnded(false));
      }
    }
  }
}
