/** A parallel download always ends: no interleaving runs for ever, none gets stuck. */
module ChunkTermination {
  import opened Common
  import opened Fetching
  import opened ChunkPlan
  import opened ChunkWorkers

  /** More than the steps between two requests of one span. */
  function Lap(cfg: Config): nat {
    |cfg.resource| + 8
  }

  function Times(a: nat, b: int): int {
    a * b
  }

  /** The retries a job has left, free ones included. */
  function Left(cfg: Config, job: Job): int {
    cfg.maxRetries - job.attempt + cfg.policy.maxRef - job.free
  }

  function Budget(cfg: Config, job: Job): int {
    Times(Lap(cfg), Left(cfg, job) + 1)
  }

  function SpanBudget(cfg: Config): int {
    Times(Lap(cfg), cfg.maxRetries + cfg.policy.maxRef + 1) + 2
  }

  function Weight(cfg: Config, p: Phase): int {
    match p
    case Stopped => 0
    case Idle => 1
    case Failing(_, _) => 2
    case Claimed(_) => SpanBudget(cfg) - 1
    case Ready(job) => Budget(cfg, job)
    case Asking(job, _, _) => Budget(cfg, job) - 1
    case Rejected(job, _, _) => Budget(cfg, job) - 2
    case Renewing(job, _, _, _) => Budget(cfg, job) - 3
    case Erred(job, _) => Budget(cfg, job) - 3
    case Copying(job, _, n) => Budget(cfg, job) - 2 - n
    case Short(job, _) => Budget(cfg, job) - 3 - |cfg.resource|
    case Sleeping(job) => Budget(cfg, job) - 4 - |cfg.resource|
  }

  function Sum(cfg: Config, ws: seq<Phase>): int {
    if ws == [] then 0 else Weight(cfg, ws[0]) + Sum(cfg, ws[1..])
  }

  /** The claims still to come. */
  function Unclaimed(cfg: Config, s: State): int {
    Times(Max(|cfg.spans| - s.next, 0), SpanBudget(cfg))
  }

  function Measure(cfg: Config, s: State): int {
    Unclaimed(cfg, s) + Sum(cfg, s.workers) + (if s.parentDone then 0 else 1)
  }

  lemma {:induction false} OneLapLess(cfg: Config, job: Job)
    ensures Budget(cfg, Retry(job)) == Budget(cfg, job) - Lap(cfg)
    ensures Budget(cfg, FreeRetry(job)) == Budget(cfg, job) - Lap(cfg)
    ensures Left(cfg, job) >= 0 ==> Budget(cfg, job) >= Lap(cfg)
  {
  }

  lemma {:induction false} SumPut(cfg: Config, ws: seq<Phase>, w: nat, p: Phase)
    requires w < |ws|
    ensures Sum(cfg, ws[w := p]) == Sum(cfg, ws) - Weight(cfg, ws[w]) + Weight(cfg, p)
  {
    if w == 0 {
      assert ws[w := p][1..] == ws[1..];
    } else {
      SumPut(cfg, ws[1..], w - 1, p);
      assert ws[w := p][1..] == ws[1..][w - 1 := p];
    }
  }

  lemma {:induction false} JobHasRoom(cfg: Config, s: State, w: nat)
    requires Inv(cfg, s) && w < |s.workers|
    ensures var p := s.workers[w];
            match p
            case Idle => true
            case Claimed(_) => true
            case Failing(_, _) => true
            case Stopped => true
            case _ => Left(cfg, p.job) >= 0 && p.job.i < |cfg.spans|
  {
  }

  lemma {:induction false} WeightsArePositive(cfg: Config, s: State, w: nat)
    requires Inv(cfg, s) && w < |s.workers|
    ensures 0 <= Weight(cfg, s.workers[w])
    ensures !s.workers[w].Stopped? && !s.workers[w].Idle? && !s.workers[w].Failing? ==> 4 <= Weight(cfg, s.workers[w])
    ensures s.workers[w].Copying? ==> s.workers[w].n <= |s.workers[w].body.data| <= |cfg.resource|
  {
  }

  /** Actions that end a renewal or a pause start the next lap. */
  lemma {:induction false} LapDrops(cfg: Config, s: State, w: nat, a: Action)
    requires w < |s.workers| && Step(cfg, s, w, a).Some?
    requires s.workers[w].Rejected? || s.workers[w].Renewing? || s.workers[w].Sleeping?
    requires 4 <= Weight(cfg, s.workers[w])
    ensures Weight(cfg, Step(cfg, s, w, a).value.workers[w]) < Weight(cfg, s.workers[w])
  {
    OneLapLess(cfg, s.workers[w].job);
  }

  /** Every action but a claim costs the worker some of its weight. */
  lemma {:induction false} WeightDrops(cfg: Config, s: State, w: nat, a: Action)
    requires Inv(cfg, s) && w < |s.workers| && Step(cfg, s, w, a).Some? && a != Claim
    ensures Weight(cfg, Step(cfg, s, w, a).value.workers[w]) < Weight(cfg, s.workers[w])
  {
    hide Inv;
    WeightsArePositive(cfg, s, w);
    if s.workers[w].Rejected? || s.workers[w].Renewing? || s.workers[w].Sleeping? {
      LapDrops(cfg, s, w, a);
    }
  }

  /** Nobody else moves, and only a claim takes an index. */
  lemma {:induction false} OneWorkerMoves(cfg: Config, s: State, w: nat, a: Action)
    requires w < |s.workers| && Step(cfg, s, w, a).Some?
    ensures var s' := Step(cfg, s, w, a).value;
            && s'.parentDone == s.parentDone && |s'.workers| == |s.workers| && s'.workers == s.workers[w := s'.workers[w]]
            && (a != Claim ==> s'.next == s.next)
  {
  }

  lemma {:induction false} MeasureDrops(cfg: Config, s: State, e: Event)
    requires Inv(cfg, s) && Next(cfg, s, e).Some?
    ensures Measure(cfg, Next(cfg, s, e).value) < Measure(cfg, s)
  {
    hide Weight, Inv, Step;
    if e.Act? {
      var s' := Step(cfg, s, e.w, e.a).value;
      OneWorkerMoves(cfg, s, e.w, e.a);
      SumPut(cfg, s.workers, e.w, s'.workers[e.w]);
      if e.a == Claim {
        ClaimPays(cfg, s, e.w);
      } else {
        WeightDrops(cfg, s, e.w, e.a);
      }
    }
  }

  lemma {:induction false} ClaimPays(cfg: Config, s: State, w: nat)
    requires w < |s.workers| && Step(cfg, s, w, Claim).Some?
    ensures var s' := Step(cfg, s, w, Claim).value;
            Unclaimed(cfg, s') + Weight(cfg, s'.workers[w]) < Unclaimed(cfg, s) + Weight(cfg, s.workers[w])
  {
  }

  lemma {:induction false} SumIsPositive(cfg: Config, s: State, from: nat)
    requires Inv(cfg, s) && from <= |s.workers|
    ensures 0 <= Sum(cfg, s.workers[from..])
    decreases |s.workers| - from
  {
    if from < |s.workers| {
      WeightsArePositive(cfg, s, from);
      SumIsPositive(cfg, s, from + 1);
      assert s.workers[from..][1..] == s.workers[from + 1..];
    }
  }

  lemma {:induction false} MeasureIsPositive(cfg: Config, s: State)
    requires Inv(cfg, s)
    ensures 0 <= Measure(cfg, s)
  {
    SumIsPositive(cfg, s, 0);
    assert s.workers[0..] == s.workers;
    assert Lap(cfg) * (cfg.maxRetries + cfg.policy.maxRef + 1) >= 0;
    assert Max(|cfg.spans| - s.next, 0) * SpanBudget(cfg) >= 0;
  }

  lemma {:induction false} RunIsBounded(cfg: Config, s: State, events: seq<Event>)
    requires Inv(cfg, s) && Run(cfg, s, events).Some?
    ensures |events| <= Measure(cfg, s)
    decreases |events|
  {
    MeasureIsPositive(cfg, s);
    if events != [] {
      NextKeepsInv(cfg, s, events[0]);
      MeasureDrops(cfg, s, events[0]);
      RunIsBounded(cfg, Next(cfg, s, events[0]).value, events[1..]);
    }
  }

  // ---------- no deadlock ----------

  /** A held mutex has a holder that is inside the callback. */
  predicate MutexOk(s: State) {
    s.mutex.Some? ==> s.mutex.value < |s.workers| && s.workers[s.mutex.value].Renewing?
  }

  /** Only the two ends of a renewal touch the mutex. */
  lemma {:induction false} NextKeepsMutex(cfg: Config, s: State, e: Event)
    requires MutexOk(s) && Next(cfg, s, e).Some?
    ensures MutexOk(Next(cfg, s, e).value)
  {
    if e.Act? {
      OneWorkerMoves(cfg, s, e.w, e.a);
    }
  }

  lemma {:induction false} RunKeepsMutex(cfg: Config, s: State, events: seq<Event>)
    requires MutexOk(s) && Inv(cfg, s) && Run(cfg, s, events).Some?
    ensures MutexOk(Run(cfg, s, events).value)
    decreases |events|
  {
    if events != [] {
      NextKeepsInv(cfg, s, events[0]);
      NextKeepsMutex(cfg, s, events[0]);
      RunKeepsMutex(cfg, Next(cfg, s, events[0]).value, events[1..]);
    }
  }

  /** An action the worker's own phase allows, the mutex being free. */
  function Enabled(cfg: Config, p: Phase): Action {
    match p
    case Idle => Claim
    case Claimed(_) => CheckContext
    case Ready(_) => ReadSource
    case Asking(_, _, _) => Answer(NoReply(Transport))
    case Rejected(_, _, _) => BeginRenew
    case Renewing(_, _, _, _) => EndRenew(None)
    case Erred(_, _) => Judge
    case Copying(job, body, n) =>
      if job.i < |cfg.spans| && n < Min(|body.data|, Size(cfg.spans[job.i])) then Write(1) else EndCopy(false, false)
    case Short(_, _) => Judge
    case Sleeping(_) => Wake
    case Failing(_, _) => Report
    case Stopped => Claim
  }

  lemma {:induction false} NeverStuck(cfg: Config, chunkSize: int, s: State) returns (e: Event)
    requires Tiles(cfg.spans, |cfg.resource|, chunkSize) && Inv(cfg, s) && MutexOk(s)
    requires !Returned(s)
    ensures Next(cfg, s, e).Some? && e != CancelParent
  {
    var w: nat;
    if s.mutex.Some? {
      w := s.mutex.value;
    } else {
      w :| w < |s.workers| && !s.workers[w].Stopped?;
    }
    var p := s.workers[w];
    e := Act(w, Enabled(cfg, p));
    JobHasRoom(cfg, s, w);
    assert PhaseOk(cfg, s, w, p);
  }

  /** Whatever the server, the callback and the scheduler do, a parallel download makes
      finitely many steps, and it can only stop making them by returning. */
  lemma {:induction false} EveryDownloadEnds(cfg: Config, chunkSize: int, parallelism: nat, src: Source, events: seq<Event>)
    requires Tiles(cfg.spans, |cfg.resource|, chunkSize)
    requires Run(cfg, Start(cfg, parallelism, src), events).Some?
    ensures |events| <= Measure(cfg, Start(cfg, parallelism, src))
    ensures var s := Run(cfg, Start(cfg, parallelism, src), events).value;
            Returned(s) || exists e :: Next(cfg, s, e).Some? && e != CancelParent
  {
    var s0 := Start(cfg, parallelism, src);
    StartIsOk(cfg, parallelism, src);
    RunIsBounded(cfg, s0, events);
    RunKeepsInv(cfg, s0, events);
    RunKeepsMutex(cfg, s0, events);
    var s := Run(cfg, s0, events).value;
    if !Returned(s) {
      var e := NeverStuck(cfg, chunkSize, s);
    }
  }
}
