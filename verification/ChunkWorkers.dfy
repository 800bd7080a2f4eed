/** download/file.go: the workers of one parallel download. Each is a process that
    claims spans off an atomic counter and climbs fetchChunkToFile's ladder for each;
    they share one Source, one file and one cancellation. */
module ChunkWorkers {
  import opened Common
  import opened Fetching
  import opened SharedSource
  import opened ChunkPlan

  datatype Config = Config(
    resource: seq<byte>,
    spans: seq<Span>,
    maxRetries: nat,
    policy: Policy)

  /** A span being fetched: retries spent, retries that were free because a refresh
      succeeded, and requests made. */
  datatype Job = Job(i: nat, attempt: nat, free: nat, fetches: nat)

  datatype Phase =
    | Idle                                                        // top of the worker loop
    | Claimed(i: nat)                                             // took an index, context not looked at
    | Ready(job: Job)                                             // top of the retry loop
    | Asking(job: Job, src: Source, gen: nat)                     // request on the wire
    | Rejected(job: Job, gen: nat, gone: bool)                    // 403 or 410, waiting for the mutex
    | Renewing(job: Job, gone: bool, cur: nat, repeat: bool)      // inside the refresh callback
    | Erred(job: Job, err: Error)                                 // request failed, not yet judged
    | Copying(job: Job, body: Body, n: nat)                       // n bytes are in the file
    | Short(job: Job, err: Error)                                 // the copy ended early, not yet judged
    | Sleeping(job: Job)                                          // backing off
    | Failing(i: nat, err: Error)                                 // about to report a terminal error
    | Stopped

  /** A claim: the worker and the index it took. */
  datatype Ticket = Ticket(worker: nat, i: nat)

  /** A file position is a hole until a byte is written there. claims lists all that were
      ever made, in order. */
  datatype State = State(
    next: nat,
    workers: seq<Phase>,
    file: seq<Option<byte>>,
    shared: Shared,
    mutex: Option<nat>,
    parentDone: bool,
    firstErr: Option<Error>,
    done: set<nat>,
    claims: seq<Ticket>)
  {
    /** The workers' own context: done once the caller's is or a worker has failed. */
    predicate Canceled() {
      parentDone || firstErr.Some?
    }

    function Put(w: nat, p: Phase): State
      requires w < |workers|
    {
      this.(workers := workers[w := p])
    }
  }

  datatype Action =
    | Claim | CheckContext | ReadSource
    | Answer(x: Exchange)
    | BeginRenew | EndRenew(answer: Option<Source>)
    | Judge
    | Write(k: nat) | EndCopy(sinkFailed: bool, late: bool)   // late: the last bytes came with a read error
    | Wake | Interrupt
    | Report

  datatype Event = CancelParent | Act(w: nat, a: Action)

  function Size(s: Span): int {
    s.end - s.start + 1
  }

  /** The file with data put at a position. */
  function Patch(file: seq<Option<byte>>, at: nat, data: seq<byte>): (r: seq<Option<byte>>)
    requires at + |data| <= |file|
    ensures |r| == |file|
    ensures forall p :: 0 <= p < |r| ==> r[p] == if at <= p < at + |data| then Some(data[p - at]) else file[p]
  {
    seq(|file|, p requires 0 <= p < |file| => if at <= p < at + |data| then Some(data[p - at]) else file[p])
  }

  function Retry(job: Job): Job {
    job.(attempt := job.attempt + 1)
  }

  function FreeRetry(job: Job): Job {
    job.(free := job.free + 1)
  }

  /** A request of worker w came back. */
  function Answered(cfg: Config, job: Job, src: Source, gen: nat, x: Exchange): Phase
    requires job.i < |cfg.spans|
  {
    match Fetch(src.strategy, x, cfg.spans[job.i].start, cfg.spans[job.i].end)
    case Opened(_, body) => Copying(job, body, 0)
    case Failure(Refused(gone)) => Rejected(job, gen, gone)
    case Failure(err) => Erred(job, err)
  }

  /** One action of worker w, or None where its phase does not allow it. */
  function Step(cfg: Config, s: State, w: nat, a: Action): Option<State>
    requires w < |s.workers|
  {
    match (a, s.workers[w])
    case (Claim, Idle) =>
      var claimed := s.(next := s.next + 1, claims := s.claims + [Ticket(w, s.next)]);
      Some(claimed.Put(w, if s.next >= |cfg.spans| then Stopped else Claimed(s.next)))
    case (CheckContext, Claimed(i)) =>
      Some(s.Put(w, if s.Canceled() then Stopped else Ready(Job(i, 0, 0, 0))))
    case (ReadSource, Ready(job)) =>
      if s.mutex.Some? then None
      else Some(s.Put(w, Asking(job.(fetches := job.fetches + 1), s.shared.src, s.shared.gen)))
    case (Answer(x), Asking(job, src, gen)) =>
      if job.i >= |cfg.spans| || (x == NoReply(Canceled) && !s.Canceled()) then None
      else
        var span := cfg.spans[job.i];
        if !(0 <= span.start <= span.end < |cfg.resource|) || !Honest(cfg.resource, src.strategy, span.start, span.end, x) then None
        else Some(s.Put(w, Answered(cfg, job, src, gen, x)))
    case (BeginRenew, Rejected(job, gen, gone)) =>
      if s.mutex.Some? then None
      else (
        match Decide(cfg.policy, s.shared, gen, gone)
        case AlreadyRenewed => Some(s.Put(w, Ready(FreeRetry(job))))
        case Declined(err) =>
          Some(s.Put(w, if !RefreshDeclined(err) || gone then Failing(job.i, err) else Erred(job, err)))
        case CallBack(cur, repeat) => Some(s.(mutex := Some(w)).Put(w, Renewing(job, gone, cur, repeat)))
      )
    case (EndRenew(answer), Renewing(job, gone, cur, repeat)) =>
      if answer.None? then Some(s.(mutex := None).Put(w, Failing(job.i, RefreshFailed)))
      else Some(s.(mutex := None, shared := Install(s.shared, gone, cur, repeat, answer.value)).Put(w, Ready(FreeRetry(job))))
    case (Judge, Erred(job, err)) =>
      Some(s.Put(w, if job.attempt >= cfg.maxRetries || !Retryable(s.Canceled(), err) then Failing(job.i, err) else Sleeping(job)))
    case (Write(k), Copying(job, body, n)) =>
      if job.i >= |cfg.spans| || k == 0 then None
      else
        var span := cfg.spans[job.i];
        if n + k > Min(|body.data|, Size(span)) || span.start < 0 || span.start + n + k > |s.file| then None
        else Some(s.(file := Patch(s.file, span.start + n, body.data[n..n + k])).Put(w, Copying(job, body, n + k)))
    case (EndCopy(sinkFailed, late), Copying(job, body, n)) =>
      if job.i >= |cfg.spans| || (late && !body.ending.Broke?) then None
      else
        var expected := Size(cfg.spans[job.i]);
        var noted := s.(shared := s.shared.(delivered := s.shared.delivered + n));
        if sinkFailed then (if n < expected then Some(noted.Put(w, Short(job, WriteFailed))) else None)
        else if n < Min(|body.data|, expected) then None
        else if n == expected && !late then Some(noted.(done := s.done + {job.i}).Put(w, Idle))
        else Some(noted.Put(w, Short(job, Incomplete)))
    case (Judge, Short(job, err)) =>
      Some(s.Put(w, if s.Canceled() then Failing(job.i, Canceled)
                    else if job.attempt >= cfg.maxRetries then Failing(job.i, err)
                    else Sleeping(job)))
    case (Wake, Sleeping(job)) => Some(s.Put(w, Ready(Retry(job))))
    case (Interrupt, Sleeping(job)) => if s.Canceled() then Some(s.Put(w, Failing(job.i, Canceled))) else None
    case (Report, Failing(_, err)) =>
      Some(s.(firstErr := if s.firstErr.None? then Some(err) else s.firstErr).Put(w, Stopped))
    case _ => None
  }

  function Next(cfg: Config, s: State, e: Event): Option<State> {
    match e
    case CancelParent => if s.parentDone then None else Some(s.(parentDone := true))
    case Act(w, a) => if w < |s.workers| then Step(cfg, s, w, a) else None
  }

  function Run(cfg: Config, s: State, events: seq<Event>): Option<State>
    decreases |events|
  {
    if events == [] then Some(s)
    else
      match Next(cfg, s, events[0])
      case None => None
      case Some(s') => Run(cfg, s', events[1..])
  }

  function Start(cfg: Config, parallelism: nat, src: Source): State {
    State(0, seq(Min(parallelism, |cfg.spans|), w => Idle), seq(|cfg.resource|, p => None),
          Initial(src), None, false, None, {}, [])
  }

  /** downloadChunks has returned once every worker has. */
  predicate Returned(s: State) {
    forall w :: 0 <= w < |s.workers| ==> s.workers[w].Stopped?
  }

  /** Its error: the caller's cancellation wins over a worker's failure. */
  function Result(s: State): Option<Error> {
    if s.parentDone then Some(Canceled) else s.firstErr
  }

  // ---------- what holds throughout ----------

  /** The span a worker is responsible for. */
  function Owns(p: Phase): Option<nat> {
    match p
    case Idle => None
    case Stopped => None
    case Claimed(i) => Some(i)
    case Failing(i, _) => Some(i)
    case _ => Some(p.job.i)
  }

  /** Every byte in the file is the resource's. */
  ghost predicate FileTrue(cfg: Config, file: seq<Option<byte>>) {
    |file| == |cfg.resource| && forall p :: 0 <= p < |file| && file[p].Some? ==> file[p].value == cfg.resource[p]
  }

  predicate Written(file: seq<Option<byte>>, from: int, to: int) {
    forall p :: from <= p < to && 0 <= p < |file| ==> file[p].Some?
  }

  /** The counters of a job; out is 1 while a request of it is unanswered or unjudged. */
  predicate Counted(cfg: Config, job: Job, out: nat, gen: nat) {
    job.attempt <= cfg.maxRetries && job.fetches == job.attempt + job.free + out && job.free <= gen
  }

  ghost predicate PhaseOk(cfg: Config, s: State, w: nat, p: Phase) {
    match p
    case Idle => true
    case Claimed(_) => true
    case Ready(job) => Counted(cfg, job, 0, s.shared.gen)
    case Asking(job, _, gen) => Counted(cfg, job, 1, gen) && gen <= s.shared.gen
    case Rejected(job, gen, _) => Counted(cfg, job, 1, gen) && gen <= s.shared.gen
    case Renewing(job, gone, cur, repeat) =>
      && Counted(cfg, job, 1, s.shared.gen) && s.mutex == Some(w)
      && s.shared.gen < cfg.policy.maxRef
      && s.shared.lastDelivered <= cur <= s.shared.delivered && repeat == (cur == s.shared.lastDelivered)
      && (repeat && !gone ==> s.shared.sameProgress < NO_PROGRESS_LIMIT)
    case Erred(job, err) => Counted(cfg, job, 1, s.shared.gen) && !err.Refused?
    case Copying(job, body, n) =>
      && Counted(cfg, job, 1, s.shared.gen)
      && (job.i < |cfg.spans| ==>
            var span := cfg.spans[job.i];
            0 <= span.start <= span.end < |cfg.resource|
            && body.data <= cfg.resource[span.start..span.end + 1]
            && n <= |body.data| && Written(s.file, span.start, span.start + n))
    case Short(job, _) => Counted(cfg, job, 1, s.shared.gen)
    case Sleeping(job) => Counted(cfg, job, 1, s.shared.gen) && job.attempt < cfg.maxRetries
    case Failing(_, _) => true
    case Stopped => s.next >= |cfg.spans| || s.Canceled()
  }

  /** Span k was claimed by this worker and is still its own. */
  predicate StillHeld(s: State, k: nat)
    requires k < |s.claims|
  {
    s.claims[k].worker < |s.workers| && Owns(s.workers[s.claims[k].worker]) == Some(k)
  }

  ghost predicate OwnersOk(cfg: Config, s: State) {
    && |s.claims| == s.next
    && (forall k :: 0 <= k < |s.claims| ==> s.claims[k].i == k)
    // an owner is the one worker that claimed the index, and the span is not finished
    && (forall w :: 0 <= w < |s.workers| && Owns(s.workers[w]).Some? ==>
          var i := Owns(s.workers[w]).value;
          i < |s.claims| && i < |cfg.spans| && s.claims[i].worker == w && i !in s.done)
    // a claimed span is finished, or held, or given up because the run is over
    && (forall k :: 0 <= k < |s.claims| && k < |cfg.spans| ==> k in s.done || s.Canceled() || StillHeld(s, k))
  }

  ghost predicate DoneOk(cfg: Config, s: State) {
    forall i :: i in s.done ==>
      i < |cfg.spans| && i < s.next && Written(s.file, cfg.spans[i].start, cfg.spans[i].end + 1)
  }

  ghost predicate Inv(cfg: Config, s: State) {
    && FileTrue(cfg, s.file)
    && Valid(cfg.policy, s.shared)
    && OwnersOk(cfg, s)
    && DoneOk(cfg, s)
    && (forall w :: 0 <= w < |s.workers| ==> PhaseOk(cfg, s, w, s.workers[w]))
  }

  // ---------- preservation ----------

  /** What an action of worker w may do to what the others rely on. */
  ghost predicate Grows(s: State, s': State, w: nat) {
    && |s'.workers| == |s.workers|
    && (forall v :: 0 <= v < |s.workers| && v != w ==> s'.workers[v] == s.workers[v])
    && s.next <= s'.next
    && (s.Canceled() ==> s'.Canceled())
    && s.shared.gen <= s'.shared.gen
    && |s'.file| == |s.file|
    && (forall p :: 0 <= p < |s.file| && s.file[p].Some? ==> s'.file[p].Some?)
    && (s.mutex.Some? && s.mutex != Some(w) ==>
          && s'.mutex == s.mutex && s.shared.delivered <= s'.shared.delivered
          && s'.shared == s.shared.(delivered := s'.shared.delivered))
  }

  lemma {:induction false} PhasesKept(cfg: Config, s: State, s': State, w: nat)
    requires Grows(s, s', w)
    requires forall v :: 0 <= v < |s.workers| ==> PhaseOk(cfg, s, v, s.workers[v])
    requires w < |s.workers| ==> PhaseOk(cfg, s', w, s'.workers[w])
    ensures forall v :: 0 <= v < |s'.workers| ==> PhaseOk(cfg, s', v, s'.workers[v])
  {
  }

  /** Actions by which a worker stays on its span, whatever true bytes it adds to the file. */
  lemma {:induction false} SameSpanKeepsInv(cfg: Config, s: State, s': State, w: nat)
    requires Inv(cfg, s) && w < |s.workers| && Grows(s, s', w)
    requires s'.next == s.next && s'.claims == s.claims && s'.done == s.done
    requires Owns(s'.workers[w]) == Owns(s.workers[w])
    requires FileTrue(cfg, s'.file) && Valid(cfg.policy, s'.shared)
    requires PhaseOk(cfg, s', w, s'.workers[w])
    ensures Inv(cfg, s')
  {
    PhasesKept(cfg, s, s', w);
    assert forall v :: 0 <= v < |s.workers| ==> Owns(s'.workers[v]) == Owns(s.workers[v]);
    assert forall k :: 0 <= k < |s.claims| && StillHeld(s, k) ==> StillHeld(s', k);
  }

  /** Actions by which a worker lets its span go because the run is over. */
  lemma {:induction false} LettingGoKeepsInv(cfg: Config, s: State, s': State, w: nat)
    requires Inv(cfg, s) && w < |s.workers| && Grows(s, s', w)
    requires s'.next == s.next && s'.claims == s.claims && s'.done == s.done
    requires s'.workers[w] == Stopped && s'.Canceled()
    requires s'.file == s.file && s'.shared == s.shared
    ensures Inv(cfg, s')
  {
    PhasesKept(cfg, s, s', w);
    assert forall v :: 0 <= v < |s.workers| && v != w ==> Owns(s'.workers[v]) == Owns(s.workers[v]);
  }

  lemma {:induction false} ClaimKeepsInv(cfg: Config, s: State, w: nat)
    requires Inv(cfg, s) && w < |s.workers| && s.workers[w].Idle?
    ensures Inv(cfg, Step(cfg, s, w, Claim).value)
  {
    var s' := Step(cfg, s, w, Claim).value;
    PhasesKept(cfg, s, s', w);
    assert forall v :: 0 <= v < |s.workers| && v != w ==> Owns(s'.workers[v]) == Owns(s.workers[v]);
    assert forall k :: 0 <= k < |s.claims| ==> s'.claims[k] == s.claims[k];
    assert forall k :: 0 <= k < |s.claims| && StillHeld(s, k) ==> StillHeld(s', k);
    assert s.next < |cfg.spans| ==> StillHeld(s', s.next);
  }

  lemma {:induction false} AnswerKeepsInv(cfg: Config, s: State, w: nat, x: Exchange)
    requires Inv(cfg, s) && w < |s.workers| && Step(cfg, s, w, Answer(x)).Some?
    ensures Inv(cfg, Step(cfg, s, w, Answer(x)).value)
  {
    var Asking(job, src, gen) := s.workers[w];
    var span := cfg.spans[job.i];
    var f := Fetch(src.strategy, x, span.start, span.end);
    if f.Opened? {
      OpenedBodyIsRequested(cfg.resource, src.strategy, span.start, span.end, x);
    }
    SameSpanKeepsInv(cfg, s, Step(cfg, s, w, Answer(x)).value, w);
  }

  /** Bytes of a body that is the span's prefix, put where they belong, leave the file true. */
  lemma {:induction false} PatchIsTrue(cfg: Config, file: seq<Option<byte>>, span: Span, data: seq<byte>, n: nat, k: nat)
    requires FileTrue(cfg, file) && 0 <= span.start <= span.end < |cfg.resource|
    requires data <= cfg.resource[span.start..span.end + 1] && n + k <= |data|
    ensures FileTrue(cfg, Patch(file, span.start + n, data[n..n + k]))
  {
    var at := span.start + n;
    var r := Patch(file, at, data[n..n + k]);
    forall p | at <= p < at + k
      ensures r[p] == Some(cfg.resource[p])
    {
      assert data[p - span.start] == cfg.resource[span.start..span.end + 1][p - span.start];
    }
  }

  lemma {:induction false} WriteKeepsInv(cfg: Config, s: State, w: nat, k: nat)
    requires Inv(cfg, s) && w < |s.workers| && Step(cfg, s, w, Write(k)).Some?
    ensures Inv(cfg, Step(cfg, s, w, Write(k)).value)
  {
    hide OwnersOk, DoneOk, FileTrue, Fetch, Honest, Decide;
    var Copying(job, body, n) := s.workers[w];
    var s' := Step(cfg, s, w, Write(k)).value;
    assert PhaseOk(cfg, s, w, s.workers[w]);
    PatchIsTrue(cfg, s.file, cfg.spans[job.i], body.data, n, k);
    assert PhaseOk(cfg, s', w, s'.workers[w]) && Grows(s, s', w);
    hide PhaseOk, Grows;
    SameSpanKeepsInv(cfg, s, s', w);
  }

  /** A span that was copied whole is done, and the worker is free. */
  lemma {:induction false} FinishedKeepsInv(cfg: Config, s: State, s': State, w: nat, i: nat)
    requires Inv(cfg, s) && w < |s.workers| && Grows(s, s', w)
    requires s'.next == s.next && s'.claims == s.claims && s'.done == s.done + {i}
    requires s'.workers[w] == Idle && Owns(s.workers[w]) == Some(i)
    requires s'.file == s.file && Valid(cfg.policy, s'.shared)
    requires i < |cfg.spans| && Written(s.file, cfg.spans[i].start, cfg.spans[i].end + 1)
    ensures Inv(cfg, s')
  {
    PhasesKept(cfg, s, s', w);
    assert forall v :: 0 <= v < |s.workers| && v != w ==> Owns(s'.workers[v]) == Owns(s.workers[v]);
    assert forall j :: 0 <= j < |s.claims| && StillHeld(s, j) && s.claims[j].worker != w ==> StillHeld(s', j);
  }

  lemma {:induction false} EndCopyKeepsInv(cfg: Config, s: State, w: nat, sinkFailed: bool, late: bool)
    requires Inv(cfg, s) && w < |s.workers| && Step(cfg, s, w, EndCopy(sinkFailed, late)).Some?
    ensures Inv(cfg, Step(cfg, s, w, EndCopy(sinkFailed, late)).value)
  {
    var s' := Step(cfg, s, w, EndCopy(sinkFailed, late)).value;
    if s'.workers[w].Short? {
      SameSpanKeepsInv(cfg, s, s', w);
    } else {
      assert PhaseOk(cfg, s, w, s.workers[w]);
      FinishedKeepsInv(cfg, s, s', w, s.workers[w].job.i);
    }
  }

  /** Actions that may take a worker out of the run. */
  lemma {:induction false} LeavingKeepsInv(cfg: Config, s: State, w: nat, a: Action)
    requires Inv(cfg, s) && w < |s.workers| && (a.CheckContext? || a.Report?) && Step(cfg, s, w, a).Some?
    ensures Inv(cfg, Step(cfg, s, w, a).value)
  {
    var s' := Step(cfg, s, w, a).value;
    if s'.workers[w].Stopped? {
      LettingGoKeepsInv(cfg, s, s', w);
    } else {
      SameSpanKeepsInv(cfg, s, s', w);
    }
  }

  lemma {:induction false} BeginRenewKeepsInv(cfg: Config, s: State, w: nat)
    requires Inv(cfg, s) && w < |s.workers| && Step(cfg, s, w, BeginRenew).Some?
    ensures Inv(cfg, Step(cfg, s, w, BeginRenew).value)
  {
    hide OwnersOk, DoneOk, FileTrue, Fetch, Honest;
    var s' := Step(cfg, s, w, BeginRenew).value;
    assert PhaseOk(cfg, s', w, s'.workers[w]) && Grows(s, s', w) by {
      assert PhaseOk(cfg, s, w, s.workers[w]);
    }
    hide PhaseOk, Grows;
    SameSpanKeepsInv(cfg, s, s', w);
  }

  lemma {:induction false} EndRenewKeepsInv(cfg: Config, s: State, w: nat, answer: Option<Source>)
    requires Inv(cfg, s) && w < |s.workers| && Step(cfg, s, w, EndRenew(answer)).Some?
    ensures Inv(cfg, Step(cfg, s, w, EndRenew(answer)).value)
  {
    SameSpanKeepsInv(cfg, s, Step(cfg, s, w, EndRenew(answer)).value, w);
  }

  lemma {:induction false} WaitingKeepsInv(cfg: Config, s: State, w: nat, a: Action)
    requires Inv(cfg, s) && w < |s.workers| && (a.ReadSource? || a.Judge? || a.Wake? || a.Interrupt?) && Step(cfg, s, w, a).Some?
    ensures Inv(cfg, Step(cfg, s, w, a).value)
  {
    hide OwnersOk, DoneOk, FileTrue, Fetch, Honest, Decide;
    SameSpanKeepsInv(cfg, s, Step(cfg, s, w, a).value, w);
  }

  lemma {:induction false} StepKeepsInv(cfg: Config, s: State, w: nat, a: Action)
    requires Inv(cfg, s) && w < |s.workers| && Step(cfg, s, w, a).Some?
    ensures Inv(cfg, Step(cfg, s, w, a).value)
  {
    match a {
      case Claim => ClaimKeepsInv(cfg, s, w);
      case CheckContext => LeavingKeepsInv(cfg, s, w, a);
      case ReadSource => WaitingKeepsInv(cfg, s, w, a);
      case Answer(x) => AnswerKeepsInv(cfg, s, w, x);
      case BeginRenew => BeginRenewKeepsInv(cfg, s, w);
      case EndRenew(answer) => EndRenewKeepsInv(cfg, s, w, answer);
      case Judge => WaitingKeepsInv(cfg, s, w, a);
      case Write(k) => WriteKeepsInv(cfg, s, w, k);
      case EndCopy(f, late) => EndCopyKeepsInv(cfg, s, w, f, late);
      case Wake => WaitingKeepsInv(cfg, s, w, a);
      case Interrupt => WaitingKeepsInv(cfg, s, w, a);
      case Report => LeavingKeepsInv(cfg, s, w, a);
    }
  }

  lemma {:induction false} NextKeepsInv(cfg: Config, s: State, e: Event)
    requires Inv(cfg, s) && Next(cfg, s, e).Some?
    ensures Inv(cfg, Next(cfg, s, e).value)
  {
    match e {
      case CancelParent =>
        PhasesKept(cfg, s, Next(cfg, s, e).value, |s.workers|);
        assert forall k :: 0 <= k < |s.claims| && StillHeld(s, k) ==> StillHeld(Next(cfg, s, e).value, k);
      case Act(w, a) => StepKeepsInv(cfg, s, w, a);
    }
  }

  lemma {:induction false} RunKeepsInv(cfg: Config, s: State, events: seq<Event>)
    requires Inv(cfg, s) && Run(cfg, s, events).Some?
    ensures Inv(cfg, Run(cfg, s, events).value)
    decreases |events|
  {
    if events != [] {
      NextKeepsInv(cfg, s, events[0]);
      RunKeepsInv(cfg, Next(cfg, s, events[0]).value, events[1..]);
    }
  }

  lemma {:induction false} StartIsOk(cfg: Config, parallelism: nat, src: Source)
    ensures Inv(cfg, Start(cfg, parallelism, src))
  {
  }
}
