/** What every run of ChunkWorkers' machine comes to: the file, the error it reports, and
    the Sources its requests went to. */
module ChunkRuns {
  import opened Common
  import opened Fetching
  import opened SharedSource
  import opened ChunkPlan
  import opened ChunkWorkers

  // ---------- the file ----------

  /** No two claims ever took the same span, a worker on a span claimed it, and what is
      done was claimed. */
  ghost predicate ClaimedOnce(s: State) {
    && (forall j, k :: 0 <= j < k < |s.claims| ==> s.claims[j].i != s.claims[k].i)
    && (forall w :: 0 <= w < |s.workers| && Owns(s.workers[w]).Some? ==> Ticket(w, Owns(s.workers[w]).value) in s.claims)
    && (forall i :: i in s.done ==> exists k :: 0 <= k < |s.claims| && s.claims[k].i == i)
  }

  lemma {:induction false} InvClaimsOnce(cfg: Config, s: State)
    requires Inv(cfg, s)
    ensures ClaimedOnce(s)
  {
    forall w | 0 <= w < |s.workers| && Owns(s.workers[w]).Some?
      ensures Ticket(w, Owns(s.workers[w]).value) in s.claims
    {
      assert s.claims[Owns(s.workers[w]).value] == Ticket(w, Owns(s.workers[w]).value);
    }
    forall i | i in s.done
      ensures exists k :: 0 <= k < |s.claims| && s.claims[k].i == i
    {
      assert s.claims[i].i == i;
    }
  }

  /** In every interleaving with any server schedule, a file byte is a hole or the right
      byte of the resource, and no span is claimed twice. */
  lemma {:induction false} FileIsAlwaysTrue(cfg: Config, parallelism: nat, src: Source, events: seq<Event>)
    requires Run(cfg, Start(cfg, parallelism, src), events).Some?
    ensures var s := Run(cfg, Start(cfg, parallelism, src), events).value;
            FileTrue(cfg, s.file) && ClaimedOnce(s)
  {
    StartIsOk(cfg, parallelism, src);
    RunKeepsInv(cfg, Start(cfg, parallelism, src), events);
    InvClaimsOnce(cfg, Run(cfg, Start(cfg, parallelism, src), events).value);
  }

  /** No job makes more than maxChunkRetries + 1 + maxRefreshes requests for its span. */
  lemma {:induction false} RequestsAreBounded(cfg: Config, parallelism: nat, src: Source, events: seq<Event>, w: nat)
    requires Run(cfg, Start(cfg, parallelism, src), events).Some?
    requires var s := Run(cfg, Start(cfg, parallelism, src), events).value;
             w < |s.workers| && s.workers[w] != Idle && !s.workers[w].Claimed? && !s.workers[w].Failing? && !s.workers[w].Stopped?
    ensures var job := Run(cfg, Start(cfg, parallelism, src), events).value.workers[w].job;
            job.fetches <= cfg.maxRetries + 1 + cfg.policy.maxRef
  {
    StartIsOk(cfg, parallelism, src);
    RunKeepsInv(cfg, Start(cfg, parallelism, src), events);
    var s := Run(cfg, Start(cfg, parallelism, src), events).value;
    assert PhaseOk(cfg, s, w, s.workers[w]);
  }

  lemma {:induction false} AllDoneIsWhole(cfg: Config, s: State, chunkSize: int)
    requires Tiles(cfg.spans, |cfg.resource|, chunkSize) && Inv(cfg, s)
    requires forall k :: 0 <= k < |cfg.spans| ==> k in s.done
    ensures s.file == seq(|cfg.resource|, p requires 0 <= p < |cfg.resource| => Some(cfg.resource[p]))
  {
    forall p | 0 <= p < |s.file|
      ensures s.file[p] == Some(cfg.resource[p])
    {
      assert Covered(cfg.spans, p);
      var k: nat :| k < |cfg.spans| && cfg.spans[k].Holds(p);
      assert Written(s.file, cfg.spans[k].start, cfg.spans[k].end + 1);
    }
  }

  /** A nil error means every span was finished and the file is the resource. */
  lemma {:induction false} NilMeansComplete(cfg: Config, chunkSize: int, parallelism: nat, src: Source, events: seq<Event>)
    requires Tiles(cfg.spans, |cfg.resource|, chunkSize) && parallelism > 0
    requires Run(cfg, Start(cfg, parallelism, src), events).Some?
    requires var s := Run(cfg, Start(cfg, parallelism, src), events).value; Returned(s) && Result(s).None?
    ensures var s := Run(cfg, Start(cfg, parallelism, src), events).value;
            && (forall k :: 0 <= k < |cfg.spans| ==> k in s.done)
            && s.file == seq(|cfg.resource|, p requires 0 <= p < |cfg.resource| => Some(cfg.resource[p]))
  {
    StartIsOk(cfg, parallelism, src);
    RunKeepsInv(cfg, Start(cfg, parallelism, src), events);
    RunLosses(cfg, Start(cfg, parallelism, src), events);
    var s := Run(cfg, Start(cfg, parallelism, src), events).value;
    forall k | 0 <= k < |cfg.spans|
      ensures k in s.done
    {
      assert s.workers[0].Stopped? && PhaseOk(cfg, s, 0, s.workers[0]);
      assert k < |s.claims|;
      assert !StillHeld(s, k);
    }
    AllDoneIsWhole(cfg, s, chunkSize);
  }

  // ---------- the error ----------

  /** What a worker gave up with, and whether its context was done when it said so. */
  datatype Loss = Loss(worker: nat, err: Error, canceled: bool)

  /** The loss an event reports, if it reports one. */
  function LossOf(s: State, e: Event): seq<Loss> {
    if e.Act? && e.a.Report? && e.w < |s.workers| && s.workers[e.w].Failing?
    then [Loss(e.w, s.workers[e.w].err, s.Canceled())] else []
  }

  /** The losses reported along a run, in order. */
  function Losses(cfg: Config, s: State, events: seq<Event>): seq<Loss>
    decreases |events|
  {
    if events == [] then []
    else
      match Next(cfg, s, events[0])
      case None => []
      case Some(s') => LossOf(s, events[0]) + Losses(cfg, s', events[1..])
  }

  function First(losses: seq<Loss>): Option<Error> {
    if losses == [] then None else Some(losses[0].err)
  }

  /** A worker that holds the cancellation for what went wrong. */
  predicate Blames(p: Phase) {
    (p.Erred? || p.Short? || p.Failing?) && p.err == Canceled
  }

  /** A cancellation is never made up: where there is one, the workers' context is done, and
      the first of them to fail can only have it from the caller. */
  ghost predicate CancelOk(s: State) {
    && (s.firstErr == Some(Canceled) ==> s.parentDone)
    && (forall w :: 0 <= w < |s.workers| && Blames(s.workers[w]) ==> s.Canceled())
  }

  lemma {:induction false} StepBlames(cfg: Config, s: State, w: nat, a: Action)
    requires w < |s.workers| && Step(cfg, s, w, a).Some?
    requires Blames(s.workers[w]) ==> s.Canceled()
    ensures var s' := Step(cfg, s, w, a).value;
            && (Blames(s'.workers[w]) ==> s'.Canceled())
            && s'.parentDone == s.parentDone && |s'.workers| == |s.workers|
            && (forall v :: 0 <= v < |s.workers| && v != w ==> s'.workers[v] == s.workers[v])
            && (s.firstErr.Some? ==> s'.firstErr == s.firstErr)
            && (s.firstErr.None? ==> s'.firstErr == First(LossOf(s, Act(w, a))))
  {
    hide Patch, Install, Valid;
  }

  lemma {:induction false} NextKeepsCancel(cfg: Config, s: State, e: Event)
    requires CancelOk(s) && Next(cfg, s, e).Some?
    ensures var s' := Next(cfg, s, e).value;
            && CancelOk(s') && |s'.workers| == |s.workers| && (s.parentDone ==> s'.parentDone)
            && (s.firstErr.Some? ==> s'.firstErr == s.firstErr)
            && (s.firstErr.None? ==> s'.firstErr == First(LossOf(s, e)))
  {
    hide Step;
    if e.Act? {
      StepBlames(cfg, s, e.w, e.a);
    }
  }

  /** From any state on: the error set first stays, and it is that of the first to report. */
  lemma {:induction false} RunLosses(cfg: Config, s: State, events: seq<Event>)
    requires CancelOk(s) && Run(cfg, s, events).Some?
    ensures var s', losses := Run(cfg, s, events).value, Losses(cfg, s, events);
            && CancelOk(s') && |s'.workers| == |s.workers| && (s.parentDone ==> s'.parentDone)
            && s'.firstErr == (if s.firstErr.Some? then s.firstErr else First(losses))
            && (forall k :: 0 < k < |losses| ==> losses[k].canceled)
            && (losses != [] && s.Canceled() ==> losses[0].canceled)
            && (losses != [] && losses[0].canceled && s.firstErr.None? ==> s'.parentDone)
    decreases |events|
  {
    hide Next, CancelOk;
    if events != [] {
      var next := Next(cfg, s, events[0]).value;
      NextKeepsCancel(cfg, s, events[0]);
      RunLosses(cfg, next, events[1..]);
    }
  }

  /** downloadChunks reports what the first worker to give up gave up with, however many
      follow. That worker's context was not done unless the caller was, and every later one's
      was. A cancellation comes out exactly when the caller canceled. */
  lemma {:induction false} FirstFailureIsReported(cfg: Config, parallelism: nat, src: Source, events: seq<Event>)
    requires Run(cfg, Start(cfg, parallelism, src), events).Some?
    ensures var s, losses := Run(cfg, Start(cfg, parallelism, src), events).value, Losses(cfg, Start(cfg, parallelism, src), events);
            && (!s.parentDone ==> Result(s) == if losses == [] then None else Some(losses[0].err))
            && (!s.parentDone && losses != [] ==> !losses[0].canceled)
            && (forall k :: 0 < k < |losses| ==> losses[k].canceled)
            && (Result(s) == Some(Canceled) <==> s.parentDone)
  {
    RunLosses(cfg, Start(cfg, parallelism, src), events);
  }

  /** And it is settled with the first report, however the run goes on. */
  lemma {:induction false} FirstFailureStays(cfg: Config, parallelism: nat, src: Source, events: seq<Event>, more: seq<Event>)
    requires Run(cfg, Start(cfg, parallelism, src), events).Some?
    requires var s := Run(cfg, Start(cfg, parallelism, src), events).value; s.firstErr.Some? && Run(cfg, s, more).Some?
    ensures var s := Run(cfg, Start(cfg, parallelism, src), events).value; Run(cfg, s, more).value.firstErr == s.firstErr
  {
    RunLosses(cfg, Start(cfg, parallelism, src), events);
    RunLosses(cfg, Run(cfg, Start(cfg, parallelism, src), events).value, more);
  }

  /** A worker at work on a span. */
  predicate AtWork(p: Phase) {
    !p.Idle? && !p.Claimed? && !p.Failing? && !p.Stopped?
  }

  /** What a worker whose context is done may still be at: what it was at, with no retry but
      the one it was waiting for and those that a refresh leads to. */
  predicate WindsUp(was: Phase, now: Phase) {
    AtWork(now) ==>
      && AtWork(was) && now.job.i == was.job.i
      && now.job.attempt + (if now.Sleeping? then 1 else 0) <= was.job.attempt + (if was.Sleeping? then 1 else 0)
  }

  lemma {:induction false} StepWindsUp(cfg: Config, s: State, w: nat, a: Action)
    requires w < |s.workers| && Step(cfg, s, w, a).Some? && s.Canceled()
    ensures var s' := Step(cfg, s, w, a).value;
            && s'.Canceled() && |s'.workers| == |s.workers|
            && forall v :: 0 <= v < |s.workers| ==> WindsUp(s.workers[v], s'.workers[v])
  {
    hide Patch, Fetch, Honest, Decide;
  }

  /** Once a worker has failed or the caller has canceled, no worker takes up another span,
      and none begins another retry. */
  lemma {:induction false} CancellationStopsTheRest(cfg: Config, s: State, events: seq<Event>)
    requires s.Canceled() && Run(cfg, s, events).Some?
    ensures var s' := Run(cfg, s, events).value;
            && s'.Canceled() && |s'.workers| == |s.workers|
            && forall v :: 0 <= v < |s.workers| ==> WindsUp(s.workers[v], s'.workers[v])
    decreases |events|
  {
    hide Step;
    if events != [] {
      if events[0].Act? {
        StepWindsUp(cfg, s, events[0].w, events[0].a);
      }
      CancellationStopsTheRest(cfg, Next(cfg, s, events[0]).value, events[1..]);
    }
  }

  // ---------- the Source of a request ----------

  /** The Source an event brought, if it ends a refresh that succeeded. */
  function AnswerOf(e: Event): seq<Source> {
    if e.Act? && e.a.EndRenew? && e.a.answer.Some? then [e.a.answer.value] else []
  }

  /** The Sources the callback answered with along a run, in order. */
  function Answers(events: seq<Event>): seq<Source> {
    if events == [] then [] else AnswerOf(events[0]) + Answers(events[1..])
  }

  /** The Source in force is the latest, and a request on the wire is made with the one of
      the generation it was read with. */
  ghost predicate SourcesOk(s: State, sources: seq<Source>) {
    && |sources| == s.shared.gen + 1 && s.shared.src == sources[s.shared.gen]
    && (forall w :: 0 <= w < |s.workers| && s.workers[w].Asking? ==>
          s.workers[w].gen < |sources| && s.workers[w].src == sources[s.workers[w].gen])
  }

  lemma {:induction false} StepReadsSource(cfg: Config, s: State, w: nat, a: Action)
    requires w < |s.workers| && Step(cfg, s, w, a).Some?
    ensures var s', p := Step(cfg, s, w, a).value, Step(cfg, s, w, a).value.workers[w];
            && (p.Asking? ==> !a.EndRenew? && p.gen == s.shared.gen && p.src == s.shared.src)
            && [s'.shared.src] == (if AnswerOf(Act(w, a)) == [] then [s.shared.src] else AnswerOf(Act(w, a)))
            && s'.shared.gen == s.shared.gen + |AnswerOf(Act(w, a))|
            && |s'.workers| == |s.workers|
            && (forall v :: 0 <= v < |s.workers| && v != w ==> s'.workers[v] == s.workers[v])
  {
    hide Patch, Fetch, Honest, Decide;
  }

  lemma {:induction false} NextKeepsSources(cfg: Config, s: State, e: Event, sources: seq<Source>)
    requires SourcesOk(s, sources) && Next(cfg, s, e).Some?
    ensures SourcesOk(Next(cfg, s, e).value, sources + AnswerOf(e))
  {
    hide Step;
    if e.Act? {
      StepReadsSource(cfg, s, e.w, e.a);
    }
  }

  lemma {:induction false} RunKeepsSources(cfg: Config, s: State, events: seq<Event>, sources: seq<Source>)
    requires SourcesOk(s, sources) && Run(cfg, s, events).Some?
    ensures SourcesOk(Run(cfg, s, events).value, sources + Answers(events))
    decreases |events|
  {
    hide Next, SourcesOk, AnswerOf;
    if events == [] {
      assert sources + [] == sources;
    } else {
      NextKeepsSources(cfg, s, events[0], sources);
      RunKeepsSources(cfg, Next(cfg, s, events[0]).value, events[1..], sources + AnswerOf(events[0]));
      Regroup(sources, AnswerOf(events[0]), Answers(events[1..]));
    }
  }

  /** In every interleaving each request goes to the Source that the callback's answers give
      its generation, so a retry at a later generation goes to a later answer. */
  lemma {:induction false} RequestsUseTheirGeneration(cfg: Config, parallelism: nat, src: Source, events: seq<Event>)
    requires Run(cfg, Start(cfg, parallelism, src), events).Some?
    ensures var s, sources := Run(cfg, Start(cfg, parallelism, src), events).value, [src] + Answers(events);
            && |sources| == s.shared.gen + 1 && s.shared.src == sources[s.shared.gen]
            && (forall w :: 0 <= w < |s.workers| && s.workers[w].Asking? ==>
                  s.workers[w].job.free <= s.workers[w].gen < |sources| && s.workers[w].src == sources[s.workers[w].gen])
  {
    var start := Start(cfg, parallelism, src);
    StartIsOk(cfg, parallelism, src);
    RunKeepsInv(cfg, start, events);
    RunKeepsSources(cfg, start, events, [src]);
    var s := Run(cfg, start, events).value;
    forall w | 0 <= w < |s.workers| && s.workers[w].Asking?
      ensures s.workers[w].job.free <= s.workers[w].gen
    {
      assert PhaseOk(cfg, s, w, s.workers[w]);
    }
  }
}
