/** download/stream.go's fetchRetrying: the ladder every request of a Source climbs,
    while other workers of the same download go on refreshing it. */
module Ladder {
  import opened Common
  import opened ByteRange
  import opened Fetching
  import opened SharedSource

  /** What another worker of the download may do between two steps of this one. */
  datatype Sibling =
    | SiblingRenews(gen: nat, gone: bool, answer: Option<Source>)
    | SiblingDelivers(n: nat)

  /** Everything outside the downloader, by the tick at which it is consulted. Every
      Source names the same resource. */
  datatype World = World(
    resource: seq<byte>,
    exchange: (nat, Source, int, int) -> Exchange,
    refreshed: nat -> Option<Source>,
    siblings: nat -> seq<Sibling>,
    piece: nat -> nat,               // how many bytes a body read hands over
    eager: nat -> bool,              // whether a read reports the end with its last bytes
    canceledFrom: Option<nat>)
  {
    predicate Canceled(t: nat) {
      canceledFrom.Some? && canceledFrom.value <= t
    }

    ghost predicate Truthful() {
      forall t: nat, src: Source, start: int, end: int ::
        var x := exchange(t, src, start, end);
        && (InRange(|resource|, start, end) ==> Honest(resource, src.strategy, start, end, x))
        && (x == NoReply(Error.Canceled) ==> Canceled(t))
    }
  }

  /** Errors that end the ladder whatever is left of the retry budget; gone tells that a 410
      led to them. */
  predicate Fatal(err: Error, end: int, gone: bool) {
    || err.RateLimited? || err.NoRefreshCallback? || err.RefreshFailed?
    || (err.Ignored? && end >= 0)
    || (RefreshDeclined(err) && gone)
  }

  /** What a ladder may report: never a URL that was turned down, as that or as its bare status. */
  predicate Reportable(err: Error) {
    || err.RateLimited? || err.Transport? || err.Canceled? || err.Ignored?
    || (err.HttpStatus? && err.code !in {403, 410})
    || err.NoRefreshCallback? || err.RefreshFailed? || RefreshDeclined(err)
  }

  /** A request that was made: when, with which Source, of which generation, and the error of
      the renewal it asked for, if there was one. */
  datatype Try = Try(t: nat, src: Source, gen: nat, renewal: Option<Error>)

  /** What the network did with it, and what the downloader makes of that. */
  function Exchanged(world: World, x: Try, start: int, end: int): Exchange {
    world.exchange(x.t, x.src, start, end)
  }

  function Outcome(world: World, x: Try, start: int, end: int): Fetched {
    Fetch(x.src.strategy, Exchanged(world, x, start, end), start, end)
  }

  /** An error that the renewal a request asked for may have ended in by now: there is no
      callback, or it failed, or its generation was the last the budget allows, or as many
      refreshes as may have run with nothing delivered, which never stops a 410. */
  ghost predicate RenewalError(world: World, policy: Policy, delivered: nat, x: Try, start: int, end: int, err: Error, clock: nat) {
    match err
    case NoRefreshCallback => !policy.hasRefresh
    case RefreshFailed => policy.hasRefresh && x.gen < policy.maxRef && exists t: nat :: x.t < t <= clock && world.refreshed(t).None?
    case BudgetSpent => policy.hasRefresh && x.gen == policy.maxRef
    case NoProgress(n, sessions) =>
      policy.hasRefresh && !Gone(Exchanged(world, x, start, end)) && sessions == NO_PROGRESS_LIMIT <= x.gen && n <= delivered
    case _ => false
  }

  /** Whether a request may be followed by one at this generation. Where its URL was turned
      down, that is a later one, or the renewal was declined and the URL is not gone; a rate
      limit is never followed, and a retry that costs something never after a cancellation. */
  predicate Follows(world: World, x: Try, gen: nat, start: int, end: int) {
    var reply := Exchanged(world, x, start, end);
    if TurnedDown(reply) && x.renewal.None? then x.gen < gen
    else
      && !world.Canceled(x.t)
      && if TurnedDown(reply) then RefreshDeclined(x.renewal.value) && !Gone(reply)
         else Outcome(world, x, start, end) != Failure(RateLimited)
  }

  /** A renewal that failed has its reason. */
  ghost predicate Renewal(world: World, policy: Policy, delivered: nat, x: Try, start: int, end: int, clock: nat) {
    TurnedDown(Exchanged(world, x, start, end)) && x.renewal.Some? ==>
      RenewalError(world, policy, delivered, x, start, end, x.renewal.value, clock)
  }

  /** Requests of one span: in order, those turned down with the renewal they ask for. */
  ghost predicate InTurn(world: World, policy: Policy, delivered: nat, tries: seq<Try>, start: int, end: int, clock: nat) {
    && (forall j, k :: 0 <= j < k < |tries| ==> tries[j].t < tries[k].t)
    && (forall k :: 0 <= k < |tries| ==> tries[k].t <= clock && Renewal(world, policy, delivered, tries[k], start, end, clock))
    && (forall k :: 0 < k < |tries| ==> Follows(world, tries[k - 1], tries[k].gen, start, end))
  }

  /** Each of them failed, and in a way that this ladder goes on from. */
  ghost predicate AllRetried(world: World, tries: seq<Try>, start: int, end: int) {
    forall k :: 0 <= k < |tries| ==> Retried(world, tries[k], start, end)
  }

  predicate Retried(world: World, x: Try, start: int, end: int) {
    var r := Outcome(world, x, start, end);
    r.Failure? && !(r.err.Ignored? && end >= 0) && !world.Canceled(x.t)
  }

  function AllButLast(tries: seq<Try>): seq<Try> {
    if tries == [] then [] else tries[..|tries| - 1]
  }

  /** A retry costs one of the retries unless a renewal led to it. */
  function Cost(world: World, x: Try, start: int, end: int): nat {
    if TurnedDown(Exchanged(world, x, start, end)) && x.renewal.None? then 0 else 1
  }

  /** What retrying after each of these requests cost. */
  function Paid(world: World, tries: seq<Try>, start: int, end: int): nat {
    if tries == [] then 0
    else Paid(world, tries[..|tries| - 1], start, end) + Cost(world, tries[|tries| - 1], start, end)
  }

  /** The last request's URL was given up for good. */
  predicate EndsGone(world: World, tries: seq<Try>, start: int, end: int) {
    tries != [] && Gone(Exchanged(world, tries[|tries| - 1], start, end))
  }

  /** What the shared source and the clock have come to. */
  datatype Moment = Moment(sources: seq<Source>, delivered: nat, clock: nat)

  predicate Before(was: Moment, now: Moment) {
    was.sources <= now.sources && was.delivered <= now.delivered && was.clock <= now.clock
  }

  /** Each was made after this tick, with the Source of its generation. */
  ghost predicate UseTheirSource(sources: seq<Source>, tries: seq<Try>, from: nat) {
    forall k :: 0 <= k < |tries| ==> from < tries[k].t && tries[k].gen < |sources| && tries[k].src == sources[tries[k].gen]
  }

  /** The requests made for one span since the ladder was entered, and the retries they cost. */
  ghost predicate Asked(world: World, policy: Policy, now: Moment, tries: seq<Try>, start: int, end: int, from: nat, attempts: nat) {
    && InTurn(world, policy, now.delivered, tries, start, end, now.clock)
    && UseTheirSource(now.sources, tries, from)
    && attempts == Paid(world, AllButLast(tries), start, end)
  }

  /** The same with another request to come. */
  ghost predicate Retrying(world: World, policy: Policy, now: Moment, tries: seq<Try>, start: int, end: int, from: nat, attempts: nat) {
    && InTurn(world, policy, now.delivered, tries, start, end, now.clock)
    && UseTheirSource(now.sources, tries, from)
    && attempts == Paid(world, tries, start, end)
    && (tries != [] ==> 0 < |now.sources| && Follows(world, tries[|tries| - 1], |now.sources| - 1, start, end))
  }

  /** What the climb reports is what its last request came to, or, where its URL was turned
      down, what the renewal failed with, or the caller's cancellation. */
  ghost predicate Reported(world: World, tries: seq<Try>, start: int, end: int, r: Fetched, clock: nat) {
    || (r == Failure(Canceled) && world.Canceled(clock))
    || (tries != [] && var last := tries[|tries| - 1];
          if TurnedDown(Exchanged(world, last, start, end)) then r.Failure? && last.renewal == Some(r.err)
          else r == Outcome(world, last, start, end))
  }

  /** An opened reply is truthful, and its body the front of what was asked for. */
  predicate IsFront(resource: seq<byte>, r: Fetched, start: int, end: int)
    requires r.Opened? && InRange(|resource|, start, end)
  {
    && TruthfulLength(r.resp) && TruthfulSpan(resource, r.resp)
    && r.resp.body <= Requested(resource, start, end)
    && r.body.data <= Requested(resource, start, end)
  }

  lemma {:induction false} NoTries(world: World, policy: Policy, now: Moment, start: int, end: int)
    ensures Retrying(world, policy, now, [], start, end, now.clock, 0) && Asked(world, policy, now, [], start, end, now.clock, 0)
    ensures AllRetried(world, [], start, end) && AllButLast([]) == []
  {
  }

  lemma {:induction false} TriesLater(world: World, policy: Policy, delivered: nat, delivered': nat,
                                      tries: seq<Try>, start: int, end: int, clock: nat, clock': nat)
    requires InTurn(world, policy, delivered, tries, start, end, clock) && delivered <= delivered' && clock <= clock'
    ensures InTurn(world, policy, delivered', tries, start, end, clock')
  {
  }

  lemma {:induction false} OneMoreInTurn(world: World, policy: Policy, delivered: nat, delivered': nat,
                                         tries: seq<Try>, x: Try, start: int, end: int, before: nat, clock: nat)
    requires InTurn(world, policy, delivered, tries, start, end, before) && delivered <= delivered' && before < x.t <= clock
    requires Renewal(world, policy, delivered', x, start, end, clock)
    requires tries != [] ==> Follows(world, tries[|tries| - 1], x.gen, start, end)
    ensures InTurn(world, policy, delivered', tries + [x], start, end, clock)
  {
    TriesLater(world, policy, delivered, delivered', tries, start, end, before, clock);
    hide Follows, Renewal;
  }

  lemma {:induction false} OneMoreUsesItsSource(sources: seq<Source>, sources': seq<Source>, tries: seq<Try>, x: Try, from: nat)
    requires UseTheirSource(sources, tries, from) && sources <= sources'
    requires from < x.t && x.gen < |sources'| && x.src == sources'[x.gen]
    ensures UseTheirSource(sources', tries + [x], from)
  {
  }

  lemma {:induction false} FollowsLater(world: World, x: Try, gen: nat, gen': nat, start: int, end: int)
    requires Follows(world, x, gen, start, end) && gen <= gen'
    ensures Follows(world, x, gen', start, end)
  {
  }

  lemma {:induction false} OneMoreTry(world: World, policy: Policy, was: Moment, now: Moment,
                                      tries: seq<Try>, x: Try, start: int, end: int, from: nat, attempts: nat)
    requires Retrying(world, policy, was, tries, start, end, from, attempts) && Before(was, now)
    requires from <= was.clock < x.t <= now.clock && 0 < |was.sources| <= x.gen + 1 <= |now.sources| && x.src == now.sources[x.gen]
    requires Renewal(world, policy, now.delivered, x, start, end, now.clock)
    ensures Asked(world, policy, now, tries + [x], start, end, from, attempts) && AllButLast(tries + [x]) == tries
  {
    hide Renewal, Paid, Follows, InTurn, UseTheirSource;
    if tries != [] {
      FollowsLater(world, tries[|tries| - 1], |was.sources| - 1, x.gen, start, end);
    }
    OneMoreInTurn(world, policy, was.delivered, now.delivered, tries, x, start, end, was.clock, now.clock);
    OneMoreUsesItsSource(was.sources, now.sources, tries, x, from);
    assert (tries + [x])[..|tries|] == tries;
  }

  lemma {:induction false} OneMoreRetried(world: World, tries: seq<Try>, start: int, end: int)
    requires AllRetried(world, AllButLast(tries), start, end)
    requires tries != [] && Retried(world, tries[|tries| - 1], start, end)
    ensures AllRetried(world, tries, start, end)
  {
    hide Retried;
    assert forall k :: 0 <= k < |tries| - 1 ==> tries[k] == AllButLast(tries)[k];
  }

  lemma {:induction false} TryAgain(world: World, policy: Policy, was: Moment, now: Moment,
                                    tries: seq<Try>, start: int, end: int, from: nat, attempts: nat)
    requires Asked(world, policy, was, tries, start, end, from, attempts) && Before(was, now)
    requires tries != [] && 0 < |now.sources| && Follows(world, tries[|tries| - 1], |now.sources| - 1, start, end)
    ensures Retrying(world, policy, now, tries, start, end, from, attempts + Cost(world, tries[|tries| - 1], start, end))
  {
    hide InTurn, Follows, Cost;
    TriesLater(world, policy, was.delivered, now.delivered, tries, start, end, was.clock, now.clock);
  }

  lemma {:induction false} AskedLater(world: World, policy: Policy, was: Moment, now: Moment,
                                      tries: seq<Try>, start: int, end: int, from: nat, attempts: nat)
    requires Asked(world, policy, was, tries, start, end, from, attempts) && Before(was, now)
    ensures Asked(world, policy, now, tries, start, end, from, attempts)
  {
    hide InTurn;
    TriesLater(world, policy, was.delivered, now.delivered, tries, start, end, was.clock, now.clock);
  }

  /** The climb was given up with err, and for a reason: the retries are spent, the error is
      fatal, or the caller canceled. */
  ghost predicate GivesUp(world: World, policy: Policy, maxRetries: nat, delivered: nat, tries: seq<Try>,
                          start: int, end: int, err: Error, clock: nat)
  {
    && InTurn(world, policy, delivered, tries, start, end, clock) && AllRetried(world, AllButLast(tries), start, end)
    && Reported(world, tries, start, end, Failure(err), clock)
    && Reportable(err)
    && (|| Paid(world, AllButLast(tries), start, end) == maxRetries
        || Fatal(err, end, EndsGone(world, tries, start, end))
        || world.Canceled(clock))
  }

  ghost predicate GaveUp(world: World, policy: Policy, maxRetries: nat, delivered: nat, start: int, end: int, err: Error, clock: nat) {
    exists tries: seq<Try> :: GivesUp(world, policy, maxRetries, delivered, tries, start, end, err, clock)
  }

  /** The ladder was left with an error. */
  lemma {:induction false} HasGivenUp(world: World, policy: Policy, maxRetries: nat, now: Moment,
                                      tries: seq<Try>, start: int, end: int, from: nat, attempts: nat, err: Error)
    requires Asked(world, policy, now, tries, start, end, from, attempts) && AllRetried(world, AllButLast(tries), start, end)
    requires Reported(world, tries, start, end, Failure(err), now.clock) && Reportable(err)
    requires attempts == maxRetries || Fatal(err, end, EndsGone(world, tries, start, end)) || world.Canceled(now.clock)
    ensures GaveUp(world, policy, maxRetries, now.delivered, start, end, err, now.clock)
  {
    hide InTurn, AllRetried, Reported, Paid, AllButLast, EndsGone, Fatal;
    assert GivesUp(world, policy, maxRetries, now.delivered, tries, start, end, err, now.clock);
  }

  lemma {:induction false} LastTried(world: World, policy: Policy, now: Moment,
                                     tries: seq<Try>, start: int, end: int, from: nat, attempts: nat)
    requires Asked(world, policy, now, tries, start, end, from, attempts) && tries != []
    ensures from < tries[|tries| - 1].t <= now.clock
  {
  }

  /** A reason stays one. */
  lemma {:induction false} GaveUpStays(world: World, policy: Policy, maxRetries: nat, delivered: nat, delivered': nat,
                                       start: int, end: int, err: Error, clock: nat, clock': nat)
    requires GaveUp(world, policy, maxRetries, delivered, start, end, err, clock) && delivered <= delivered' && clock <= clock'
    ensures GaveUp(world, policy, maxRetries, delivered', start, end, err, clock')
  {
    var tries: seq<Try> :| GivesUp(world, policy, maxRetries, delivered, tries, start, end, err, clock);
    TriesLater(world, policy, delivered, delivered', tries, start, end, clock, clock');
    assert GivesUp(world, policy, maxRetries, delivered', tries, start, end, err, clock');
  }

  class Downloader {
    const world: World
    const shared: Download
    const maxChunkRetries: nat
    var clock: nat

    ghost function Now(): Moment
      reads this`clock, shared`sources, shared`delivered
    {
      Moment(shared.sources, shared.delivered, clock)
    }

    constructor (world: World, shared: Download, maxChunkRetries: nat)
      ensures this.world == world && this.shared == shared && this.maxChunkRetries == maxChunkRetries
      ensures clock == 0
    {
      this.world, this.shared, this.maxChunkRetries, this.clock := world, shared, maxChunkRetries, 0;
    }

    method Tick()
      modifies this`clock
      ensures clock == old(clock) + 1
    {
      clock := clock + 1;
    }

    /** The siblings' turn: any renewals and deliveries, in any order. */
    method Interfere()
      requires shared.Ok()
      modifies this`clock, shared
      ensures shared.Ok() && old(shared.gen) <= shared.gen && Before(old(Now()), Now())
      ensures old(clock) < clock
    {
      var acts := world.siblings(clock);
      Tick();
      for k := 0 to |acts|
        invariant old(clock) < clock
        invariant shared.Ok() && old(shared.gen) <= shared.gen && Before(old(Now()), Now())
      {
        match acts[k] {
          case SiblingDelivers(n) => shared.NoteDelivered(n);
          case SiblingRenews(g, gone, answer) => var _ := shared.Renew(g, gone, answer);
        }
      }
    }

    /** One request, with the siblings at work before and after it. */
    method Ask(start: int, end: int) returns (r: Fetched, gen: nat, ghost x: Try)
      requires shared.Ok()
      modifies this`clock, shared
      ensures shared.Ok() && old(shared.gen) <= gen <= shared.gen && Before(old(Now()), Now())
      ensures old(clock) < x.t < clock && r == Outcome(world, x, start, end)
      ensures x.gen == gen && x.src == shared.sources[gen] && x.renewal == None
      ensures var turnedDown := TurnedDown(Exchanged(world, x, start, end));
              && (turnedDown ==> r == Failure(Refused(Gone(Exchanged(world, x, start, end)))))
              && (!turnedDown && r.Failure? ==> Reportable(r.err))
      ensures r.Opened? && world.Truthful() && InRange(|world.resource|, start, end) ==> IsFront(world.resource, r, start, end)
    {
      Interfere();
      var src := shared.src;
      gen := shared.gen;
      var reply := world.exchange(clock, src, start, end);
      r := Fetch(src.strategy, reply, start, end);
      x := Try(clock, src, gen, None);
      RefusedIffTurnedDown(src.strategy, reply, start, end);
      if r.Opened? && world.Truthful() && InRange(|world.resource|, start, end) {
        OpenedBodyIsRequested(world.resource, src.strategy, start, end, reply);
      }
      Interfere();
    }

    /** One request and, where its URL is turned down, the renewal it asks for. */
    method Request(start: int, end: int) returns (r: Fetched, rerr: Option<Error>, ghost x: Try)
      requires shared.Ok()
      modifies this`clock, shared
      ensures shared.Ok() && old(shared.gen) <= x.gen <= shared.gen && Before(old(Now()), Now())
      ensures old(clock) < x.t < clock && r == Outcome(world, x, start, end)
      ensures x.renewal == rerr && x.src == shared.sources[x.gen]
      ensures var reply := Exchanged(world, x, start, end);
              if TurnedDown(reply)
              then r == Failure(Refused(Gone(reply))) && (rerr.None? ==> x.gen < shared.gen)
              else rerr.None? && (r.Failure? ==> Reportable(r.err))
      ensures Renewal(world, shared.policy, shared.delivered, x, start, end, clock)
      ensures rerr.Some? ==> RefreshDeclined(rerr.value) || rerr.value.NoRefreshCallback? || rerr.value.RefreshFailed?
      ensures r.Opened? && world.Truthful() && InRange(|world.resource|, start, end) ==> IsFront(world.resource, r, start, end)
    {
      hide Fetch, IsFront;
      var gen;
      r, gen, x := Ask(start, end);
      rerr := None;
      if r.Failure? && r.err.Refused? {
        rerr := shared.Renew(gen, r.err.gone, world.refreshed(clock));
        x := x.(renewal := rerr);
      }
    }

    /** Asks for [start, end] until it opens or the ladder gives up. attempts counts the
        retries spent. */
    method FetchRetrying(start: int, end: int) returns (r: Fetched, attempts: nat, ghost tries: seq<Try>)
      requires shared.Ok()
      modifies this`clock, shared
      ensures shared.Ok() && old(shared.gen) <= shared.gen && Before(old(Now()), Now())
      // what opens is the front of what was asked for
      ensures r.Opened? && world.Truthful() && InRange(|world.resource|, start, end) ==>
                IsFront(world.resource, r, start, end)
      // every request is on record, and a 403 or 410 leads to a renewal, which never spends a retry
      ensures Asked(world, shared.policy, Now(), tries, start, end, old(clock), attempts)
      ensures AllRetried(world, AllButLast(tries), start, end)
      // requests are bounded whatever the siblings do
      ensures attempts <= maxChunkRetries && |tries| <= maxChunkRetries + 1 + shared.policy.maxRef
      // what is reported happened, and is never a 403 or 410
      ensures Reported(world, tries, start, end, r, clock)
      ensures r.Failure? ==> Reportable(r.err)
      // giving up means the budget is spent, the error is fatal, or the caller canceled
      ensures r.Failure? ==>
                attempts == maxChunkRetries || Fatal(r.err, end, EndsGone(world, tries, start, end)) || world.Canceled(clock)
    {
      hide Asked, Retrying, IsFront, Renewal, Fetch, AllRetried, AllButLast;
      attempts, tries := 0, [];
      ghost var free := 0;
      NoTries(world, shared.policy, Now(), start, end);
      while true
        invariant shared.Ok() && old(shared.gen) <= shared.gen && Before(old(Now()), Now())
        invariant attempts <= maxChunkRetries && |tries| == attempts + free && free <= shared.gen
        invariant !world.Canceled(clock) ==> AllRetried(world, tries, start, end)
        invariant AllRetried(world, AllButLast(tries), start, end)
        invariant Retrying(world, shared.policy, Now(), tries, start, end, old(clock), attempts)
        invariant world.Canceled(clock) ==> Asked(world, shared.policy, Now(), tries, start, end, old(clock), attempts)
        decreases maxChunkRetries - attempts + shared.policy.maxRef - free
      {
        if world.Canceled(clock) {
          return Failure(Canceled), attempts, tries;
        }
        ghost var was, x := Now(), Try(0, shared.src, 0, None);
        var rerr;
        r, rerr, x := Request(start, end);
        OneMoreTry(world, shared.policy, was, Now(), tries, x, start, end, old(clock), attempts);
        tries := tries + [x];
        if r.Opened? {
          return;
        }
        var err := r.err;
        if err.Refused? {
          if rerr.None? {
            free := free + 1;
            TryAgain(world, shared.policy, Now(), Now(), tries, start, end, old(clock), attempts);
            if !world.Canceled(clock) {
              OneMoreRetried(world, tries, start, end);
            }
            continue;
          }
          if !RefreshDeclined(rerr.value) || err.gone {
            return Failure(rerr.value), attempts, tries;
          }
          err := rerr.value;
        }
        if (end >= 0 && err.Ignored?) || attempts >= maxChunkRetries || !Retryable(world.Canceled(clock), err) {
          return Failure(err), attempts, tries;
        }
        was := Now();
        Tick();
        AskedLater(world, shared.policy, was, Now(), tries, start, end, old(clock), attempts);
        if world.Canceled(clock) {
          return Failure(Canceled), attempts, tries;
        }
        TryAgain(world, shared.policy, Now(), Now(), tries, start, end, old(clock), attempts);
        OneMoreRetried(world, tries, start, end);
        attempts := attempts + 1;
      }
    }
  }
}
