/** download/download.go: the Source every worker of one download shares, and the
    rules for refreshing it. */
module SharedSource {
  import opened Common
  import opened Fetching

  /** How many successive refreshes may run with nothing delivered in between. */
  const NO_PROGRESS_LIMIT: nat := 2

  /** The fields of sharedSource. A lastDelivered of -1 means no refresh has happened. */
  datatype Shared = Shared(
    src: Source,
    gen: nat,
    refCount: nat,
    delivered: nat,
    lastDelivered: int,
    sameProgress: nat)

  datatype Policy = Policy(hasRefresh: bool, maxRef: nat)

  function Initial(src: Source): Shared {
    Shared(src, 0, 0, 0, -1, 0)
  }

  /** What renew decides before it would call the refresh callback. */
  datatype Decision =
    | AlreadyRenewed                     // another worker advanced the generation
    | Declined(err: Error)
    | CallBack(cur: nat, repeat: bool)   // delivered bytes as read, and whether they stood still

  function Decide(policy: Policy, s: Shared, gen: nat, gone: bool): Decision {
    if gen != s.gen then AlreadyRenewed
    else if !policy.hasRefresh then Declined(NoRefreshCallback)
    else
      var repeat := s.delivered == s.lastDelivered;
      if repeat && !gone && s.sameProgress >= NO_PROGRESS_LIMIT then Declined(NoProgress(s.delivered, s.sameProgress))
      else if s.refCount >= policy.maxRef then Declined(BudgetSpent)
      else CallBack(s.delivered, repeat)
  }

  /** The state after a callback that was told cur bytes came back with newSrc. */
  function Install(s: Shared, gone: bool, cur: nat, repeat: bool, newSrc: Source): Shared {
    s.(src := newSrc,
       gen := s.gen + 1,
       refCount := s.refCount + 1,
       lastDelivered := if gone || repeat then s.lastDelivered else cur,
       sameProgress := if gone then s.sameProgress else if repeat then s.sameProgress + 1 else 1)
  }

  /** A refresh the shared source refused to perform, which callers may retry in place. */
  predicate RefreshDeclined(err: Error) {
    err.BudgetSpent? || err.NoProgress?
  }

  /** retryable: whether the download layer retries err while its context is live. */
  predicate Retryable(canceled: bool, err: Error) {
    !canceled && !err.RateLimited? && !err.Refused?
  }

  predicate Valid(policy: Policy, s: Shared) {
    && s.gen == s.refCount <= policy.maxRef
    && -1 <= s.lastDelivered <= s.delivered
    && s.sameProgress <= NO_PROGRESS_LIMIT && s.sameProgress <= s.refCount
    && (s.lastDelivered == -1 <==> s.sameProgress == 0)
  }

  /** One whole renewal, with the callback's answer given. */
  function Renewed(policy: Policy, s: Shared, gen: nat, gone: bool, answer: Option<Source>): (Shared, Option<Error>) {
    match Decide(policy, s, gen, gone)
    case AlreadyRenewed => (s, None)
    case Declined(err) => (s, Some(err))
    case CallBack(cur, repeat) =>
      if answer.None? then (s, Some(RefreshFailed)) else (Install(s, gone, cur, repeat, answer.value), None)
  }

  /** A renewal that reports success leaves the caller's generation behind, so a retry
      it licenses is always made against a newer one: the callback's answer, unless another
      worker was there first. */
  lemma {:induction false} SuccessRaisesGeneration(policy: Policy, s: Shared, gen: nat, gone: bool, answer: Option<Source>)
    requires Valid(policy, s) && gen <= s.gen
    ensures var (s', err) := Renewed(policy, s, gen, gone, answer);
            && Valid(policy, s')
            && (err.None? ==> gen < s'.gen)
            && (err.Some? ==> s' == s)
            && s.gen <= s'.gen <= s.gen + 1
            && (err.None? && gen == s.gen ==> answer == Some(s'.src) && s'.gen == s.gen + 1)
            && (err.Some? || gen != s.gen ==> s'.src == s.src && s'.gen == s.gen)
  {
  }

  class Download {
    const policy: Policy
    var src: Source
    var gen: nat
    var refCount: nat
    var delivered: nat
    var lastDelivered: int
    var sameProgress: nat
    ghost var sources: seq<Source>      // every Source there was, by generation

    function State(): Shared
      reads this
    {
      Shared(src, gen, refCount, delivered, lastDelivered, sameProgress)
    }

    ghost predicate Ok()
      reads this
    {
      && Valid(policy, State())
      && |sources| == gen + 1 && src == sources[gen]
    }

    constructor (src: Source, policy: Policy)
      ensures this.policy == policy && State() == Initial(src) && Ok()
    {
      this.policy, sources := policy, [src];
      this.src, gen, refCount, delivered, lastDelivered, sameProgress := src, 0, 0, 0, -1, 0;
    }

    method NoteDelivered(n: int)
      requires Ok()
      modifies this
      ensures Ok()
      ensures State() == old(State()).(delivered := old(delivered) + Max(n, 0))
      ensures sources == old(sources)
    {
      if n > 0 {
        delivered := delivered + n;
      }
    }

    /** renew, with what the callback would answer if it were called. */
    method Renew(g: nat, gone: bool, answer: Option<Source>) returns (err: Option<Error>)
      requires Ok()
      modifies this
      ensures Ok()
      ensures (State(), err) == Renewed(policy, old(State()), g, gone, answer)
      ensures err.None? && g <= old(gen) ==> g < gen
      ensures old(gen) <= gen && delivered == old(delivered)
      // what the callback answered is in force from now on; nothing else ever replaces the Source
      ensures err.None? && g == old(gen) ==> answer == Some(src) && gen == old(gen) + 1 && sources == old(sources) + [src]
      ensures err.Some? || g != old(gen) ==> src == old(src) && gen == old(gen) && sources == old(sources)
    {
      if g != gen {
        return None;
      }
      if !policy.hasRefresh {
        return Some(NoRefreshCallback);
      }
      var cur := delivered;
      var repeat := cur == lastDelivered;
      if repeat && !gone && sameProgress >= NO_PROGRESS_LIMIT {
        return Some(NoProgress(cur, sameProgress));
      }
      if refCount >= policy.maxRef {
        return Some(BudgetSpent);
      }
      if answer.None? {
        return Some(RefreshFailed);
      }
      if !gone {
        if repeat {
          sameProgress := sameProgress + 1;
        } else {
          lastDelivered, sameProgress := cur, 1;
        }
      }
      src, sources := answer.value, sources + [answer.value];
      gen := gen + 1;
      refCount := refCount + 1;
      return None;
    }
  }
}
