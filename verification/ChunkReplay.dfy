/** One worker of ChunkWorkers on one span, with the rest of the download seen from outside:
    what the others do to the shared source, and the caller's cancellation. */
module ChunkReplay {
  import opened Common
  import opened Fetching
  import opened SharedSource
  import opened ChunkWorkers

  /** An action of the worker, or what others did in between. */
  datatype Move = Own(a: Action) | Around(shared: Shared, canceled: bool)

  /** The worker on its span, and what it can see of the rest. */
  datatype View = View(phase: Phase, file: seq<Option<byte>>, shared: Shared, canceled: bool, done: bool)

  /** The machine with this worker alone in it. */
  function Alone(v: View): State {
    State(1, [v.phase], v.file, v.shared, None, v.canceled, None, if v.done then {0} else {}, [Ticket(0, 0)])
  }

  function MoveOn(cfg: Config, s: State, m: Move): Option<State> {
    match m
    case Own(a) => if |s.workers| == 1 then Step(cfg, s, 0, a) else None
    case Around(shared, canceled) =>
      if s.mutex.None? && Valid(cfg.policy, shared) && s.shared.gen <= shared.gen && s.shared.delivered <= shared.delivered
         && (s.parentDone ==> canceled)
      then Some(s.(shared := shared, parentDone := canceled)) else None
  }

  function Replay(cfg: Config, s: State, moves: seq<Move>): Option<State> {
    if moves == [] then Some(s)
    else
      match Replay(cfg, s, moves[..|moves| - 1])
      case None => None
      case Some(s') => MoveOn(cfg, s', moves[|moves| - 1])
  }

  /** The machine's moves lead from one view of the worker to another. */
  ghost predicate Leads(cfg: Config, from: View, moves: seq<Move>, to: View) {
    Replay(cfg, Alone(from), moves) == Some(Alone(to))
  }

  lemma {:induction false} OneMore(cfg: Config, from: View, moves: seq<Move>, v: View, m: Move, to: View)
    requires Leads(cfg, from, moves, v) && MoveOn(cfg, Alone(v), m) == Some(Alone(to))
    ensures Leads(cfg, from, moves + [m], to)
  {
    assert (moves + [m])[..|moves|] == moves;
  }

  lemma {:induction false} Begins(cfg: Config, from: View)
    ensures Leads(cfg, from, [], from)
  {
  }

  // ---- the steps

  lemma {:induction false} OneSlot(p: Phase, q: Phase)
    ensures [p][0 := q] == [q]
  {
  }

  lemma {:induction false} OthersMove(cfg: Config, v: View, shared: Shared, canceled: bool)
    requires Valid(cfg.policy, shared) && v.shared.gen <= shared.gen && v.shared.delivered <= shared.delivered && (v.canceled ==> canceled)
    ensures MoveOn(cfg, Alone(v), Around(shared, canceled)) == Some(Alone(v.(shared := shared, canceled := canceled)))
  {
  }

  lemma {:induction false} Reads(cfg: Config, v: View)
    requires v.phase.Ready?
    ensures MoveOn(cfg, Alone(v), Own(ReadSource))
         == Some(Alone(v.(phase := Asking(v.phase.job.(fetches := v.phase.job.fetches + 1), v.shared.src, v.shared.gen))))
  {
    OneSlot(v.phase, Asking(v.phase.job.(fetches := v.phase.job.fetches + 1), v.shared.src, v.shared.gen));
  }

  lemma {:induction false} IsAnswered(cfg: Config, v: View, x: Exchange)
    requires v.phase.Asking? && v.phase.job.i < |cfg.spans| && (x == NoReply(Canceled) ==> v.canceled)
    requires var span := cfg.spans[v.phase.job.i];
             0 <= span.start <= span.end < |cfg.resource| && Honest(cfg.resource, v.phase.src.strategy, span.start, span.end, x)
    ensures MoveOn(cfg, Alone(v), Own(Answer(x))) == Some(Alone(v.(phase := Answered(cfg, v.phase.job, v.phase.src, v.phase.gen, x))))
  {
    OneSlot(v.phase, Answered(cfg, v.phase.job, v.phase.src, v.phase.gen, x));
  }

  /** Where a refused request goes once the renewal is over. */
  function AfterRenewal(job: Job, gone: bool, err: Option<Error>): Phase {
    if err.None? then Ready(FreeRetry(job))
    else if !RefreshDeclined(err.value) || gone then Failing(job.i, err.value)
    else Erred(job, err.value)
  }

  /** The machine's two-step renewal comes to what the one-call renewal does. */
  lemma {:induction false} Renews(cfg: Config, from: View, moves: seq<Move>, v: View, answer: Option<Source>) returns (more: seq<Move>)
    requires Leads(cfg, from, moves, v) && v.phase.Rejected?
    ensures var (shared, err) := Renewed(cfg.policy, v.shared, v.phase.gen, v.phase.gone, answer);
            Leads(cfg, from, more, v.(shared := shared, phase := AfterRenewal(v.phase.job, v.phase.gone, err)))
  {
    var Rejected(job, gen, gone) := v.phase;
    var (shared, err) := Renewed(cfg.policy, v.shared, gen, gone, answer);
    var to := v.(shared := shared, phase := AfterRenewal(job, gone, err));
    if Decide(cfg.policy, v.shared, gen, gone).CallBack? {
      more := RenewsInCallback(cfg, from, moves, v, answer, to);
    } else {
      RenewsAtOnce(cfg, v, to);
      OneMore(cfg, from, moves, v, Own(BeginRenew), to);
      more := moves + [Own(BeginRenew)];
    }
  }

  lemma {:induction false} RenewsAtOnce(cfg: Config, v: View, to: View)
    requires v.phase.Rejected? && !Decide(cfg.policy, v.shared, v.phase.gen, v.phase.gone).CallBack?
    requires to == v.(phase := AfterRenewal(v.phase.job, v.phase.gone, Renewed(cfg.policy, v.shared, v.phase.gen, v.phase.gone, None).1))
    ensures MoveOn(cfg, Alone(v), Own(BeginRenew)) == Some(Alone(to))
  {
    OneSlot(v.phase, to.phase);
  }

  lemma {:induction false} RenewsInCallback(cfg: Config, from: View, moves: seq<Move>, v: View, answer: Option<Source>, to: View)
    returns (more: seq<Move>)
    requires Leads(cfg, from, moves, v) && v.phase.Rejected? && Decide(cfg.policy, v.shared, v.phase.gen, v.phase.gone).CallBack?
    requires var (shared, err) := Renewed(cfg.policy, v.shared, v.phase.gen, v.phase.gone, answer);
             to == v.(shared := shared, phase := AfterRenewal(v.phase.job, v.phase.gone, err))
    ensures Leads(cfg, from, more, to)
  {
    var d := Decide(cfg.policy, v.shared, v.phase.gen, v.phase.gone);
    var renewing := Renewing(v.phase.job, v.phase.gone, d.cur, d.repeat);
    var inside := Alone(v.(phase := renewing)).(mutex := Some(0));
    OneSlot(v.phase, renewing);
    OneSlot(renewing, to.phase);
    assert MoveOn(cfg, Alone(v), Own(BeginRenew)) == Some(inside);
    assert MoveOn(cfg, inside, Own(EndRenew(answer))) == Some(Alone(to));
    var once := moves + [Own(BeginRenew)];
    more := once + [Own(EndRenew(answer))];
    assert once[..|moves|] == moves && more[..|once|] == once;
  }

  /** The phase of a worker that has judged a failed request. */
  function AfterFailure(cfg: Config, canceled: bool, job: Job, err: Error): Phase {
    if job.attempt >= cfg.maxRetries || !Retryable(canceled, err) then Failing(job.i, err) else Sleeping(job)
  }

  /** The same after a short copy. */
  function AfterShort(cfg: Config, canceled: bool, job: Job, err: Error): Phase {
    if canceled then Failing(job.i, Canceled)
    else if job.attempt >= cfg.maxRetries then Failing(job.i, err)
    else Sleeping(job)
  }

  lemma {:induction false} Judges(cfg: Config, v: View, to: Phase)
    requires match v.phase
             case Erred(job, err) => to == AfterFailure(cfg, v.canceled, job, err)
             case Short(job, err) => to == AfterShort(cfg, v.canceled, job, err)
             case _ => false
    ensures MoveOn(cfg, Alone(v), Own(Judge)) == Some(Alone(v.(phase := to)))
  {
    OneSlot(v.phase, to);
  }

  /** Where a pause leads: back to the request, or out when the caller has canceled. */
  lemma {:induction false} WakesUp(cfg: Config, v: View, a: Action, to: Phase)
    requires v.phase.Sleeping?
    requires (a == Wake && to == Ready(Retry(v.phase.job))) || (a == Interrupt && v.canceled && to == Failing(v.phase.job.i, Canceled))
    ensures MoveOn(cfg, Alone(v), Own(a)) == Some(Alone(v.(phase := to)))
  {
    OneSlot(v.phase, to);
  }

  /** What a copy that took n bytes leaves: the span finished, or a short copy. */
  function AfterCopy(v: View, file: seq<Option<byte>>, n: nat, whole: bool, sinkFailed: bool): View
    requires v.phase.Copying?
  {
    v.(file := file,
       shared := v.shared.(delivered := v.shared.delivered + n),
       phase := if whole then Idle else Short(v.phase.job, if sinkFailed then WriteFailed else Incomplete),
       done := whole)
  }

  lemma {:induction false} Writes(cfg: Config, v: View, n: nat)
    requires v.phase.Copying? && v.phase.n == 0 && v.phase.job.i == 0 && |cfg.spans| == 1
    requires var span := cfg.spans[0];
             0 <= span.start <= span.end && span.end < |v.file|
             && 0 < n <= |v.phase.body.data| <= Size(span)
    ensures MoveOn(cfg, Alone(v), Own(Write(n)))
         == Some(Alone(v.(file := Patch(v.file, cfg.spans[0].start, v.phase.body.data[..n]), phase := v.phase.(n := n))))
  {
    assert v.phase.body.data[0..n] == v.phase.body.data[..n];
    OneSlot(v.phase, v.phase.(n := n));
  }

  lemma {:induction false} Copies(cfg: Config, from: View, moves: seq<Move>, v: View, n: nat, late: bool) returns (more: seq<Move>)
    requires Leads(cfg, from, moves, v) && v.phase.Copying? && v.phase.n == 0 && !v.done
    requires v.phase.job.i == 0 && |cfg.spans| == 1
    requires late ==> v.phase.body.ending.Broke?
    requires var span := cfg.spans[0];
             0 <= span.start <= span.end && span.end < |v.file|
             && n <= |v.phase.body.data| <= Size(span)
    ensures var span, body := cfg.spans[0], v.phase.body;
            Leads(cfg, from, more, AfterCopy(v, Patch(v.file, span.start, body.data[..n]), n,
                                             n == Size(span) && !late, n < |body.data|))
  {
    hide MoveOn, Replay;
    var Copying(job, body, _) := v.phase;
    var span := cfg.spans[0];
    var file := Patch(v.file, span.start, body.data[..n]);
    var written := v.(file := file, phase := Copying(job, body, n));
    more := moves;
    if n > 0 {
      Writes(cfg, v, n);
      OneMore(cfg, from, moves, v, Own(Write(n)), written);
      more := moves + [Own(Write(n))];
    } else {
      assert file == v.file;
    }
    var end := Own(EndCopy(n < |body.data|, late));
    var to := AfterCopy(v, file, n, n == Size(span) && !late, n < |body.data|);
    EndsCopy(cfg, written, late, to);
    OneMore(cfg, from, more, written, end, to);
    more := more + [end];
  }

  lemma {:induction false} EndsCopy(cfg: Config, v: View, late: bool, to: View)
    requires v.phase.Copying? && v.phase.job.i == 0 && |cfg.spans| == 1 && !v.done
    requires late ==> v.phase.body.ending.Broke?
    requires v.phase.n <= |v.phase.body.data| <= Size(cfg.spans[0])
    requires var n, data := v.phase.n, v.phase.body.data;
             to == AfterCopy(v, v.file, n, n == Size(cfg.spans[0]) && !late, n < |data|)
    ensures MoveOn(cfg, Alone(v), Own(EndCopy(v.phase.n < |v.phase.body.data|, late))) == Some(Alone(to))
  {
    OneSlot(v.phase, to.phase);
    assert {} + {0} == {0};
  }
}
