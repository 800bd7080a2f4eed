/** download/file.go's fetchChunkToFile as one worker runs it: a span is fetched and
    written in place, while the siblings refresh the Source. Along the way it keeps the moves
    of ChunkWorkers' machine that it corresponds to. */
module ChunkFile {
  import opened Common
  import opened Fetching
  import opened SharedSource
  import opened ChunkPlan
  import opened ChunkWorkers
  import opened ChunkReplay
  import opened Ladder

  /** The bytes outside the span are the ones there before. */
  predicate SameOutside(file: seq<Option<byte>>, was: seq<Option<byte>>, span: Span) {
    |file| == |was| && forall p :: 0 <= p < |file| && !span.Holds(p) ==> file[p] == was[p]
  }

  /** io.Copy through the offset writer: as many of the bytes as the sink takes. */
  method CopyAt(file: array<Option<byte>>, at: nat, data: seq<byte>, taken: nat) returns (n: nat)
    requires at + |data| <= file.Length
    modifies file
    ensures n == Min(|data|, taken)
    ensures file[..] == Patch(old(file[..]), at, data[..n])
  {
    n := Min(|data|, taken);
    for k := 0 to n
      invariant forall p :: 0 <= p < file.Length ==>
                              file[p] == if at <= p < at + k then Some(data[p - at]) else old(file[p])
    {
      file[at + k] := Some(data[k]);
    }
  }

  /** The machine this download is one worker of. */
  ghost function Machine(d: Downloader, span: Span): Config {
    Config(d.world.resource, [span], d.maxChunkRetries, d.shared.policy)
  }

  /** What the worker sees now, in this phase. */
  ghost function Sees(d: Downloader, file: seq<Option<byte>>, phase: Phase, done: bool): View
    reads d, d.shared
  {
    View(phase, file, d.shared.State(), d.world.Canceled(d.clock), done)
  }

  /** The moves have brought the machine's worker to what this one sees now. */
  ghost predicate Tracks(d: Downloader, cfg: Config, from: View, moves: seq<Move>, file: seq<Option<byte>>, phase: Phase, done: bool)
    reads d, d.shared
  {
    Leads(cfg, from, moves, Sees(d, file, phase, done))
  }

  /** The siblings' turn. */
  method Await(d: Downloader, ghost cfg: Config, ghost from: View, ghost moves: seq<Move>, ghost v: View)
    returns (ghost moves': seq<Move>, ghost v': View)
    requires d.shared.Ok() && cfg.policy == d.shared.policy
    requires Leads(cfg, from, moves, v) && v == Sees(d, v.file, v.phase, v.done)
    modifies d`clock, d.shared
    ensures d.shared.Ok() && old(d.shared.gen) <= d.shared.gen && old(d.clock) < d.clock && Before(old(d.Now()), d.Now())
    ensures v' == Sees(d, v.file, v.phase, v.done) && Leads(cfg, from, moves', v')
  {
    d.Interfere();
    v' := Sees(d, v.file, v.phase, v.done);
    OthersMove(cfg, v, v'.shared, v'.canceled);
    moves' := moves + [Around(v'.shared, v'.canceled)];
    OneMore(cfg, from, moves, v, Around(v'.shared, v'.canceled), v');
  }

  /** The backoff between two attempts; false when the caller cancels in it. */
  method Pause(d: Downloader, ghost cfg: Config, ghost from: View, ghost moves: seq<Move>, ghost v: View)
    returns (goOn: bool, ghost moves': seq<Move>, ghost v': View)
    requires d.shared.Ok() && cfg.policy == d.shared.policy && v.phase.Sleeping?
    requires Leads(cfg, from, moves, v) && v == Sees(d, v.file, v.phase, v.done)
    modifies d`clock
    ensures goOn == !d.world.Canceled(d.clock) && old(d.clock) < d.clock
    ensures v' == Sees(d, v.file, if goOn then Ready(Retry(v.phase.job)) else Failing(v.phase.job.i, Canceled), v.done)
    ensures Leads(cfg, from, moves', v')
  {
    d.Tick();
    goOn := !d.world.Canceled(d.clock);
    ghost var woken := Sees(d, v.file, v.phase, v.done);
    ghost var a := if goOn then Wake else Interrupt;
    OthersMove(cfg, v, woken.shared, woken.canceled);
    OneMore(cfg, from, moves, v, Around(woken.shared, woken.canceled), woken);
    v' := Sees(d, v.file, if goOn then Ready(Retry(v.phase.job)) else Failing(v.phase.job.i, Canceled), v.done);
    WakesUp(cfg, woken, a, v'.phase);
    moves' := moves + [Around(woken.shared, woken.canceled)];
    OneMore(cfg, from, moves', woken, Own(a), v');
    moves' := moves' + [Own(a)];
  }

  /** One request: the source as it stands, and what the network made of it. */
  method Ask(d: Downloader, span: Span, ghost cfg: Config, ghost from: View, ghost moves: seq<Move>, ghost v: View)
    returns (r: Fetched, gen: nat, x: Exchange, src: Source, ghost q: Try, ghost moves': seq<Move>, ghost v': View)
    requires d.shared.Ok() && d.world.Truthful() && cfg == Machine(d, span)
    requires 0 <= span.start <= span.end < |d.world.resource|
    requires v.phase.Ready? && v.phase.job.i == 0 && Leads(cfg, from, moves, v) && v == Sees(d, v.file, v.phase, v.done)
    modifies d`clock, d.shared
    ensures d.shared.Ok() && old(d.shared.gen) <= gen <= d.shared.gen && Before(old(d.Now()), d.Now())
    ensures Honest(d.world.resource, src.strategy, span.start, span.end, x) && r == Fetch(src.strategy, x, span.start, span.end)
    ensures IsAsked(d, span, q, r, x, src, gen) && old(d.clock) < q.t
    ensures var job := v.phase.job;
            v' == Sees(d, v.file, Answered(cfg, job.(fetches := job.fetches + 1), src, gen, x), v.done)
    ensures Leads(cfg, from, moves', v')
  {
    ghost var job := v.phase.job.(fetches := v.phase.job.fetches + 1);
    moves', v' := Await(d, cfg, from, moves, v);
    src, gen := d.shared.src, d.shared.gen;
    x := d.world.exchange(d.clock, src, span.start, span.end);
    r := Fetch(src.strategy, x, span.start, span.end);
    q := Try(d.clock, src, gen, None);
    RefusedIffTurnedDown(src.strategy, x, span.start, span.end);
    Reads(cfg, v');
    ghost var asking := v'.(phase := Asking(job, src, gen));
    OneMore(cfg, from, moves', v', Own(ReadSource), asking);
    moves' := moves' + [Own(ReadSource)];
    IsAnswered(cfg, asking, x);
    v' := asking.(phase := Answered(cfg, job, src, gen, x));
    OneMore(cfg, from, moves', asking, Own(Answer(x)), v');
    moves' := moves' + [Own(Answer(x))];
    moves', v' := Await(d, cfg, from, moves', v');
  }

  /** A request that was made with the Source of this generation, and what came of it. */
  ghost predicate IsAsked(d: Downloader, span: Span, q: Try, r: Fetched, x: Exchange, src: Source, gen: nat)
    reads d`clock, d.shared`sources
  {
    && q == Try(q.t, src, gen, None) && q.t < d.clock
    && gen < |d.shared.sources| && src == d.shared.sources[gen]
    && x == Exchanged(d.world, q, span.start, span.end) && r == Outcome(d.world, q, span.start, span.end)
    && (TurnedDown(x) ==> r == Failure(Refused(Gone(x))))
    && (!TurnedDown(x) && r.Failure? ==> Reportable(r.err))
  }

  /** A refused request asks for a renewal. */
  method RenewFor(d: Downloader, span: Span, gen: nat, gone: bool, ghost q: Try,
                  ghost cfg: Config, ghost from: View, ghost moves: seq<Move>, ghost v: View)
    returns (rerr: Option<Error>, ghost q': Try, ghost moves': seq<Move>, ghost v': View)
    requires d.shared.Ok() && cfg.policy == d.shared.policy && gen <= d.shared.gen
    requires q.gen == gen && q.t < d.clock && gone == Gone(Exchanged(d.world, q, span.start, span.end))
    requires v.phase.Rejected? && v.phase.gen == gen && v.phase.gone == gone
    requires Leads(cfg, from, moves, v) && v == Sees(d, v.file, v.phase, v.done)
    modifies d.shared
    ensures d.shared.Ok() && old(d.shared.gen) <= d.shared.gen && (rerr.None? ==> gen < d.shared.gen) && Before(old(d.Now()), d.Now())
    ensures q' == q.(renewal := rerr) && Renewal(d.world, d.shared.policy, d.shared.delivered, q', span.start, span.end, d.clock)
    ensures rerr.Some? ==> RefreshDeclined(rerr.value) || rerr.value.NoRefreshCallback? || rerr.value.RefreshFailed?
    ensures v' == Sees(d, v.file, AfterRenewal(v.phase.job, gone, rerr), v.done) && Leads(cfg, from, moves', v')
  {
    ghost var answer := d.world.refreshed(d.clock);
    ghost var more := Renews(cfg, from, moves, v, answer);
    rerr := d.shared.Renew(gen, gone, d.world.refreshed(d.clock));
    q' := q.(renewal := rerr);
    moves', v' := more, Sees(d, v.file, AfterRenewal(v.phase.job, gone, rerr), v.done);
  }

  /** A failed attempt is judged. */
  ghost method Judge(cfg: Config, from: View, moves: seq<Move>, v: View, to: Phase) returns (moves': seq<Move>, v': View)
    requires Leads(cfg, from, moves, v)
    requires (v.phase.Erred? && to == AfterFailure(cfg, v.canceled, v.phase.job, v.phase.err))
          || (v.phase.Short? && to == AfterShort(cfg, v.canceled, v.phase.job, v.phase.err))
    ensures v' == v.(phase := to) && Leads(cfg, from, moves', v')
  {
    Judges(cfg, v, to);
    v' := v.(phase := to);
    moves' := moves + [Own(ChunkWorkers.Judge)];
    OneMore(cfg, from, moves, v, Own(ChunkWorkers.Judge), v');
  }

  /** The body is copied into the file; whole when all of the span got there and no read
      error came with its last bytes. */
  method CopyBody(d: Downloader, file: array<Option<byte>>, span: Span, body: Body, taken: nat,
                  ghost cfg: Config, ghost from: View, ghost moves: seq<Move>, ghost v: View)
    returns (whole: bool, sinkFailed: bool, ghost moves': seq<Move>, ghost v': View)
    requires d.shared.Ok() && cfg == Machine(d, span)
    requires 0 <= span.start <= span.end < |d.world.resource| && body.data <= d.world.resource[span.start..span.end + 1]
    requires FileTrue(cfg, file[..]) && !v.done
    requires v.phase.Copying? && v.phase.job.i == 0 && v.phase.body == body && v.phase.n == 0
    requires Leads(cfg, from, moves, v) && v == Sees(d, file[..], v.phase, false)
    modifies file, d.shared
    ensures d.shared.Ok() && old(d.shared.gen) == d.shared.gen && Before(old(d.Now()), d.Now())
    ensures FileTrue(cfg, file[..]) && SameOutside(file[..], old(file[..]), span)
    ensures whole ==> Written(file[..], span.start, span.end + 1) && old(d.shared.delivered) + Size(span) <= d.shared.delivered
    ensures v'.phase == if whole then Idle else Short(v.phase.job, if sinkFailed then WriteFailed else Incomplete)
    ensures v' == Sees(d, file[..], v'.phase, whole) && Leads(cfg, from, moves', v')
  {
    var n := CopyAt(file, span.start, body.data, taken);
    PatchIsTrue(cfg, old(file[..]), span, body.data, 0, n);
    assert body.data[0..n] == body.data[..n];
    sinkFailed := n < |body.data|;
    var late := body.ending.Broke? && d.world.eager(d.clock);
    whole := n == span.end - span.start + 1 && !late;
    ghost var more := Copies(cfg, from, moves, v, n, late);
    d.shared.NoteDelivered(n);
    moves', v' := more, AfterCopy(v, file[..], n, whole, sinkFailed);
  }

  /** How a turn of the loop ends: with a retry that is free or is not, or with the loop. */
  datatype Turn = Free | Again | Over(e: Option<Error>)

  /** Why the loop may end in an error; gone tells that the last reply was a 410. */
  predicate Reason(d: Downloader, e: Error, attempts: nat, gone: bool)
    reads d
  {
    && (Reportable(e) || e.WriteFailed? || e.Incomplete?)
    && (attempts == d.maxChunkRetries || d.world.Canceled(d.clock) || Fatal(e, -1, gone))
  }

  /** What the loop ends in is what its last request came to, or, where its URL was turned
      down, what the renewal failed with, or the caller's cancellation. */
  predicate EndsAs(d: Downloader, span: Span, q: Try, e: Option<Error>)
    reads d
  {
    var r := Outcome(d.world, q, span.start, span.end);
    if e.None? then r.Opened?
    else
      || (e.value == Canceled && d.world.Canceled(d.clock))
      || (if TurnedDown(Exchanged(d.world, q, span.start, span.end)) then q.renewal == e
          else if r.Failure? then r.err == e.value
          else e.value == WriteFailed || e.value == Incomplete)
  }

  function PhaseAfter(turn: Turn, job: Job): Phase {
    match turn
    case Free => Ready(FreeRetry(job))
    case Again => Sleeping(job)
    case Over(e) => if e.None? then Idle else Failing(job.i, e.value)
  }

  /** The request failed. */
  method OnFailure(d: Downloader, span: Span, err: Error, gen: nat, ghost q: Try,
                   ghost cfg: Config, ghost from: View, ghost moves: seq<Move>, ghost file: seq<Option<byte>>,
                   ghost job: Job, attempts: nat)
    returns (turn: Turn, ghost q': Try, ghost moves': seq<Move>)
    requires d.shared.Ok() && cfg.policy == d.shared.policy && cfg.maxRetries == d.maxChunkRetries
    requires gen == q.gen <= d.shared.gen && q.t < d.clock && q.renewal == None && attempts <= d.maxChunkRetries && job.attempt == attempts
    requires Outcome(d.world, q, span.start, span.end) == Failure(err)
    requires var reply := Exchanged(d.world, q, span.start, span.end);
             if TurnedDown(reply) then err == Refused(Gone(reply)) else Reportable(err)
    requires Tracks(d, cfg, from, moves, file, if err.Refused? then Rejected(job, gen, err.gone) else Erred(job, err), false)
    modifies d.shared
    ensures d.shared.Ok() && old(d.shared.gen) <= d.shared.gen && Before(old(d.Now()), d.Now())
    ensures (turn.Free? ==> gen < d.shared.gen) && (turn.Again? ==> attempts < d.maxChunkRetries)
    ensures turn.Over? ==> turn.e.Some? && Reason(d, turn.e.value, attempts, Gone(Exchanged(d.world, q, span.start, span.end)))
    ensures Settles(d, span, q, q', turn)
    ensures Tracks(d, cfg, from, moves', file, PhaseAfter(turn, job), false)
  {
    hide Leads, Fetch, RenewalError;
    var cause := err;
    ghost var v := Sees(d, file, if err.Refused? then Rejected(job, gen, err.gone) else Erred(job, err), false);
    q', moves' := q, moves;
    if err.Refused? {
      var rerr;
      rerr, q', moves', v := RenewFor(d, span, gen, err.gone, q, cfg, from, moves, v);
      if rerr.None? {
        turn := Free;
        return;
      }
      cause := rerr.value;
      if !RefreshDeclined(cause) || err.gone {
        turn := Over(Some(cause));
        return;
      }
    }
    moves', v := Judge(cfg, from, moves', v, AfterFailure(cfg, v.canceled, job, cause));
    turn := if attempts >= d.maxChunkRetries || !Retryable(d.world.Canceled(d.clock), cause) then Over(Some(cause)) else Again;
  }

  /** What a turn makes of its request: the renewal on record, a retry where one may follow,
      or the end. */
  ghost predicate Settles(d: Downloader, span: Span, q: Try, q': Try, turn: Turn)
    reads d, d.shared
  {
    && q' == q.(renewal := q'.renewal)
    && Renewal(d.world, d.shared.policy, d.shared.delivered, q', span.start, span.end, d.clock)
    && (match turn
        case Over(e) => EndsAs(d, span, q', e)
        case _ => Follows(d.world, q', d.shared.gen, span.start, span.end)
                  && Cost(d.world, q', span.start, span.end) == if turn.Free? then 0 else 1)
  }

  /** The request opened: its body is copied. */
  method OnOpened(d: Downloader, file: array<Option<byte>>, span: Span, body: Body, taken: nat, ghost q: Try,
                  ghost cfg: Config, ghost from: View, ghost moves: seq<Move>, ghost job: Job, attempts: nat)
    returns (turn: Turn, ghost moves': seq<Move>)
    requires d.shared.Ok() && cfg == Machine(d, span) && attempts <= d.maxChunkRetries
    requires 0 <= span.start <= span.end < |d.world.resource| && body.data <= d.world.resource[span.start..span.end + 1]
    requires FileTrue(cfg, file[..]) && job.i == 0 && job.attempt == attempts
    requires Outcome(d.world, q, span.start, span.end).Opened? && !TurnedDown(Exchanged(d.world, q, span.start, span.end))
    requires q.renewal == None && q.t < d.clock
    requires Tracks(d, cfg, from, moves, file[..], Copying(job, body, 0), false)
    modifies file, d.shared
    ensures d.shared.Ok() && old(d.shared.gen) == d.shared.gen && Before(old(d.Now()), d.Now())
    ensures FileTrue(cfg, file[..]) && SameOutside(file[..], old(file[..]), span)
    ensures !turn.Free? && (turn.Again? ==> attempts < d.maxChunkRetries)
    ensures turn == Over(None) ==> Written(file[..], span.start, span.end + 1) && old(d.shared.delivered) + Size(span) <= d.shared.delivered
    ensures turn.Over? && turn.e.Some? ==> Reason(d, turn.e.value, attempts, false)
    ensures Settles(d, span, q, q, turn)
    ensures Tracks(d, cfg, from, moves', file[..], PhaseAfter(turn, job), turn == Over(None))
  {
    hide Leads, Fetch;
    var whole, sinkFailed;
    ghost var v := Sees(d, file[..], Copying(job, body, 0), false);
    whole, sinkFailed, moves', v := CopyBody(d, file, span, body, taken, cfg, from, moves, v);
    if whole {
      turn := Over(None);
      return;
    }
    var cause := if sinkFailed then WriteFailed else Incomplete;
    moves', v := Judge(cfg, from, moves', v, AfterShort(cfg, v.canceled, job, cause));
    turn := if d.world.Canceled(d.clock) then Over(Some(Canceled))
      else if attempts >= d.maxChunkRetries then Over(Some(cause))
      else Again;
  }

  /** Where a turn and the pause behind it leave the worker. */
  function PhaseAfterPause(turn: Turn, job: Job): Phase {
    if turn.Again? then Ready(Retry(job)) else PhaseAfter(turn, job)
  }

  /** The requests made for the span so far, with another to come. */
  ghost predicate Trying(d: Downloader, span: Span, tries: seq<Try>, since: nat, attempts: nat)
    reads d, d.shared
  {
    Retrying(d.world, d.shared.policy, d.Now(), tries, span.start, span.end, since, attempts)
  }

  /** The requests made for the span, and what they ended in. */
  ghost predicate Tried(d: Downloader, span: Span, tries: seq<Try>, since: nat, attempts: nat, e: Option<Error>)
    reads d, d.shared
  {
    && Asked(d.world, d.shared.policy, d.Now(), tries, span.start, span.end, since, attempts)
    && tries != [] && EndsAs(d, span, tries[|tries| - 1], e)
  }

  /** A request that was settled since, with the Source of its generation. */
  ghost predicate Made(d: Downloader, span: Span, was: Moment, q: Try, turn: Turn)
    reads d, d.shared
  {
    && was.clock < q.t <= d.clock && 0 < |was.sources| <= q.gen + 1 <= |d.shared.sources| && q.src == d.shared.sources[q.gen]
    && Settles(d, span, q, q, turn) && (turn.Free? ==> q.gen < d.shared.gen)
  }

  /** A request and what comes of it. */
  method Request(d: Downloader, file: array<Option<byte>>, span: Span, sink: nat -> nat, attempts: nat,
                 ghost cfg: Config, ghost from: View, ghost moves: seq<Move>, ghost job: Job)
    returns (turn: Turn, ghost q: Try, ghost moves': seq<Move>)
    requires d.shared.Ok() && d.world.Truthful() && cfg == Machine(d, span) && attempts <= d.maxChunkRetries
    requires 0 <= span.start <= span.end < |d.world.resource|
    requires FileTrue(cfg, file[..]) && job.i == 0 && job.attempt == attempts
    requires Tracks(d, cfg, from, moves, file[..], Ready(job), false)
    modifies file, d`clock, d.shared
    ensures d.shared.Ok() && old(d.shared.gen) <= d.shared.gen && Before(old(d.Now()), d.Now())
    ensures FileTrue(cfg, file[..]) && SameOutside(file[..], old(file[..]), span)
    ensures turn.Again? ==> attempts < d.maxChunkRetries
    ensures turn == Over(None) ==> Written(file[..], span.start, span.end + 1) && old(d.shared.delivered) + Size(span) <= d.shared.delivered
    ensures turn.Over? && turn.e.Some? ==> Reason(d, turn.e.value, attempts, Gone(Exchanged(d.world, q, span.start, span.end)))
    ensures Made(d, span, old(d.Now()), q, turn)
    ensures Tracks(d, cfg, from, moves', file[..], PhaseAfter(turn, job.(fetches := job.fetches + 1)), turn == Over(None))
  {
    hide Leads, RenewalError, FileTrue, Written, Reason, EndsAs, Follows, Cost, Renewal, Retryable, Valid;
    ghost var asked := job.(fetches := job.fetches + 1);
    ghost var v := Sees(d, file[..], Ready(job), false);
    var r, gen, x, src;
    r, gen, x, src, q, moves', v := Ask(d, span, cfg, from, moves, v);
    match r {
      case Failure(err) =>
        turn, q, moves' := OnFailure(d, span, err, gen, q, cfg, from, moves', file[..], asked, attempts);
      case Opened(_, body) =>
        OpenedBodyIsRequested(d.world.resource, src.strategy, span.start, span.end, x);
        turn, moves' := OnOpened(d, file, span, body, sink(d.clock), q, cfg, from, moves', asked, attempts);
    }
  }

  /** One turn: a request, what comes of it and, before a retry, the backoff. */
  method TakeTurn(d: Downloader, file: array<Option<byte>>, span: Span, sink: nat -> nat, attempts: nat,
                  ghost tries: seq<Try>, ghost since: nat, ghost cfg: Config, ghost from: View, ghost moves: seq<Move>, ghost job: Job)
    returns (turn: Turn, ghost tries': seq<Try>, ghost moves': seq<Move>)
    requires d.shared.Ok() && d.world.Truthful() && cfg == Machine(d, span) && attempts <= d.maxChunkRetries
    requires 0 <= span.start <= span.end < |d.world.resource|
    requires FileTrue(cfg, file[..]) && job.i == 0 && job.attempt == attempts
    requires Trying(d, span, tries, since, attempts) && since <= d.clock
    requires Tracks(d, cfg, from, moves, file[..], Ready(job), false)
    modifies file, d`clock, d.shared
    ensures d.shared.Ok() && old(d.shared.gen) <= d.shared.gen && (turn.Free? ==> old(d.shared.gen) < d.shared.gen) && since <= d.clock
    ensures FileTrue(cfg, file[..]) && SameOutside(file[..], old(file[..]), span)
    ensures turn.Again? ==> attempts < d.maxChunkRetries
    ensures |tries'| == |tries| + 1
    ensures turn.Free? ==> Trying(d, span, tries', since, attempts)
    ensures turn.Again? ==> Trying(d, span, tries', since, attempts + 1)
    ensures old(d.shared.delivered) <= d.shared.delivered
    ensures turn == Over(None) ==> Written(file[..], span.start, span.end + 1) && old(d.shared.delivered) + Size(span) <= d.shared.delivered
    ensures turn.Over? ==> Tried(d, span, tries', since, attempts, turn.e)
    ensures turn.Over? && turn.e.Some? ==> Reason(d, turn.e.value, attempts, EndsGone(d.world, tries', span.start, span.end))
    ensures Tracks(d, cfg, from, moves', file[..], PhaseAfterPause(turn, job.(fetches := job.fetches + 1)), turn == Over(None))
  {
    hide Leads, RenewalError, FileTrue, Written, Asked, Retrying, Renewal, Follows, Cost, Outcome;
    ghost var asked := job.(fetches := job.fetches + 1);
    ghost var was, q := d.Now(), Try(0, d.shared.src, 0, None);
    turn, q, moves' := Request(d, file, span, sink, attempts, cfg, from, moves, job);
    OneMoreTry(d.world, d.shared.policy, was, d.Now(), tries, q, span.start, span.end, since, attempts);
    tries' := tries + [q];
    if turn.Again? {
      ghost var asleep, v := d.Now(), Sees(d, file[..], Sleeping(asked), false);
      var goOn;
      goOn, moves', v := Pause(d, cfg, from, moves', v);
      AskedLater(d.world, d.shared.policy, asleep, d.Now(), tries', span.start, span.end, since, attempts);
      turn := if goOn then Again else Over(Some(Canceled));
    }
    if !turn.Over? {
      TryAgain(d.world, d.shared.policy, d.Now(), d.Now(), tries', span.start, span.end, since, attempts);
    }
  }

  /** sink tells, by tick, how many bytes the disk takes before a write fails. */
  method FetchChunkToFile(d: Downloader, file: array<Option<byte>>, span: Span, sink: nat -> nat)
    returns (e: Option<Error>, attempts: nat, ghost tries: seq<Try>, ghost moves: seq<Move>)
    requires d.shared.Ok() && d.world.Truthful()
    requires 0 <= span.start <= span.end < |d.world.resource|
    requires FileTrue(Machine(d, span), file[..])
    modifies file, d`clock, d.shared
    ensures d.shared.Ok() && old(d.shared.gen) <= d.shared.gen
    // only the span is written, and only with the resource's bytes
    ensures FileTrue(Machine(d, span), file[..]) && SameOutside(file[..], old(file[..]), span)
    // success means the whole span is there, and counts as delivered
    ensures e.None? ==> Written(file[..], span.start, span.end + 1) && old(d.shared.delivered) + Size(span) <= d.shared.delivered
    // every request is on record, a 403 or 410 leads to a renewal, which never spends a retry,
    // and what is reported happened
    ensures Tried(d, span, tries, old(d.clock), attempts, e)
    // requests are bounded whatever the siblings do
    ensures attempts <= d.maxChunkRetries && |tries| <= d.maxChunkRetries + 1 + d.shared.policy.maxRef
    // failure means the retries are spent, the error is fatal, or the caller canceled, and is
    // never a 403 or 410 as such
    ensures e.Some? ==> Reason(d, e.value, attempts, EndsGone(d.world, tries, span.start, span.end))
    // it does what a worker of the machine does on this span
    ensures Leads(Machine(d, span),
                  old(Sees(d, file[..], Ready(Job(0, 0, 0, 0)), false)),
                  moves,
                  Sees(d, file[..], if e.None? then Idle else Failing(0, e.value), e.None?))
  {
    hide Leads, FileTrue, Written, Trying, Tried, Reason;
    attempts, tries := 0, [];
    ghost var cfg := Machine(d, span);
    ghost var from := Sees(d, file[..], Ready(Job(0, 0, 0, 0)), false);
    ghost var free := 0;
    moves := [];
    Begins(cfg, from);
    NothingTried(d, span);
    while true
      invariant d.shared.Ok() && old(d.shared.gen) <= d.shared.gen
      invariant old(d.shared.delivered) <= d.shared.delivered && old(d.clock) <= d.clock
      invariant attempts <= d.maxChunkRetries && |tries| == attempts + free && free <= d.shared.gen
      invariant FileTrue(cfg, file[..]) && SameOutside(file[..], old(file[..]), span)
      invariant Trying(d, span, tries, old(d.clock), attempts)
      invariant Tracks(d, cfg, from, moves, file[..], Ready(Job(0, attempts, free, |tries|)), false)
      decreases d.maxChunkRetries - attempts + d.shared.policy.maxRef - free
    {
      var turn;
      turn, tries, moves := TakeTurn(d, file, span, sink, attempts, tries, old(d.clock), cfg, from, moves, Job(0, attempts, free, |tries|));
      match turn {
        case Over(err) => return err, attempts, tries, moves;
        case Free => free := free + 1;
        case Again => attempts := attempts + 1;
      }
    }
  }

  lemma {:induction false} NothingTried(d: Downloader, span: Span)
    ensures Trying(d, span, [], d.clock, 0)
  {
    NoTries(d.world, d.shared.policy, d.Now(), span.start, span.end);
  }
}
