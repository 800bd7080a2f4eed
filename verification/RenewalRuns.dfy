/** Every interleaving of the workers that share one Source: deliveries are counted
    without the mutex, renewals run under it, and the callback runs inside. */
module RenewalRuns {
  import opened Common
  import opened Fetching
  import opened SharedSource

  /** A worker inside the callback, with what renew read before calling it. */
  datatype Call = Call(gone: bool, cur: nat, repeat: bool)

  /** A refresh that succeeded: the delivered count it read, whether a 410 asked for it, and
      what it brought. */
  datatype Entry = Entry(cur: nat, gone: bool, src: Source)

  datatype State = State(s: Shared, mutex: Option<nat>, calling: map<nat, Call>, log: seq<Entry>)

  datatype Event =
    | Deliver(n: nat)                                   // any worker, no lock
    | Enter(worker: nat, gen: nat, gone: bool)          // renew takes the mutex
    | Leave(worker: nat, answer: Option<Source>)        // the callback returns

  function Start(src: Source): State {
    State(Initial(src), None, map[], [])
  }

  function Step(policy: Policy, r: State, e: Event): Option<State> {
    match e
    case Deliver(n) => Some(r.(s := r.s.(delivered := r.s.delivered + n)))
    case Enter(w, gen, gone) =>
      if r.mutex.Some? || gen > r.s.gen then None
      else if Decide(policy, r.s, gen, gone).CallBack? then
        var d := Decide(policy, r.s, gen, gone);
        Some(r.(mutex := Some(w), calling := r.calling[w := Call(gone, d.cur, d.repeat)]))
      else Some(r)
    case Leave(w, answer) =>
      if w !in r.calling then None
      else
        var call := r.calling[w];
        var back := r.(mutex := None, calling := r.calling - {w});
        if answer.None? then Some(back)
        else Some(back.(s := Install(r.s, call.gone, call.cur, call.repeat, answer.value),
                        log := r.log + [Entry(call.cur, call.gone, answer.value)]))
  }

  function Run(policy: Policy, r: State, events: seq<Event>): Option<State>
    decreases |events|
  {
    if events == [] then Some(r)
    else
      match Step(policy, r, events[0])
      case None => None
      case Some(r') => Run(policy, r', events[1..])
  }

  /** The Source a refresh brought, if the event ends one. */
  function AnswerOf(e: Event): seq<Source> {
    if e.Leave? && e.answer.Some? then [e.answer.value] else []
  }

  /** The Sources the callback answered with, in order: what the events say of them. */
  function Answers(events: seq<Event>): seq<Source> {
    if events == [] then []
    else AnswerOf(events[0]) + Answers(events[1..])
  }

  /** The bytes the events say were delivered. */
  function Landed(events: seq<Event>): nat {
    if events == [] then 0 else (if events[0].Deliver? then events[0].n else 0) + Landed(events[1..])
  }

  /** How many refreshes not caused by a 410 succeeded at this delivered count. */
  function Count(log: seq<Entry>, v: int): nat {
    if log == [] then 0
    else
      var last := log[|log| - 1];
      Count(log[..|log| - 1], v) + (if !last.gone && last.cur == v then 1 else 0)
  }

  ghost predicate CallInv(policy: Policy, s: Shared, c: Call) {
    && s.lastDelivered <= c.cur <= s.delivered
    && c.repeat == (c.cur == s.lastDelivered)
    && (c.repeat && !c.gone ==> s.sameProgress < NO_PROGRESS_LIMIT)
    && s.refCount < policy.maxRef
  }

  ghost predicate LogInv(s: Shared, log: seq<Entry>) {
    && |log| == s.gen
    && (forall v :: v > s.lastDelivered ==> Count(log, v) == 0)
    && (forall v :: Count(log, v) <= NO_PROGRESS_LIMIT)
    && (s.lastDelivered >= 0 ==> Count(log, s.lastDelivered) == s.sameProgress)
  }

  ghost predicate Inv(policy: Policy, r: State) {
    && Valid(policy, r.s)
    && r.calling.Keys == (if r.mutex.Some? then {r.mutex.value} else {})
    && (forall w :: w in r.calling ==> CallInv(policy, r.s, r.calling[w]))
    && LogInv(r.s, r.log)
  }

  lemma {:induction false} CountAppended(log: seq<Entry>, e: Entry, v: int)
    ensures Count(log + [e], v) == Count(log, v) + (if !e.gone && e.cur == v then 1 else 0)
  {
  }

  lemma {:induction false} InstallKeepsLog(policy: Policy, s: Shared, log: seq<Entry>, c: Call, newSrc: Source)
    requires Valid(policy, s) && CallInv(policy, s, c) && LogInv(s, log)
    ensures Valid(policy, Install(s, c.gone, c.cur, c.repeat, newSrc))
    ensures LogInv(Install(s, c.gone, c.cur, c.repeat, newSrc), log + [Entry(c.cur, c.gone, newSrc)])
  {
    var e := Entry(c.cur, c.gone, newSrc);
    forall v: int
      ensures Count(log + [e], v) == Count(log, v) + (if !e.gone && e.cur == v then 1 else 0)
    {
      CountAppended(log, e, v);
    }
  }

  lemma {:induction false} StepKeepsInv(policy: Policy, r: State, e: Event)
    requires Inv(policy, r) && Step(policy, r, e).Some?
    ensures Inv(policy, Step(policy, r, e).value)
  {
    match e {
      case Deliver(_) =>
      case Enter(_, _, _) =>
      case Leave(w, answer) =>
        if answer.Some? {
          InstallKeepsLog(policy, r.s, r.log, r.calling[w], answer.value);
        }
    }
  }

  lemma {:induction false} RunKeepsInv(policy: Policy, r: State, events: seq<Event>)
    requires Inv(policy, r) && Run(policy, r, events).Some?
    ensures Inv(policy, Run(policy, r, events).value)
    decreases |events|
  {
    if events != [] {
      StepKeepsInv(policy, r, events[0]);
      RunKeepsInv(policy, Step(policy, r, events[0]).value, events[1..]);
    }
  }

  /** The refresh discipline of one download, in every interleaving. */
  lemma {:induction false} RenewalDiscipline(policy: Policy, src: Source, events: seq<Event>)
    requires Run(policy, Start(src), events).Some?
    ensures var r := Run(policy, Start(src), events).value;
            // the generation counts the successful refreshes and stays within the budget
            && r.s.gen == |r.log| <= policy.maxRef
            // one refresh at a time
            && |r.calling| <= 1
            // at most two refreshes not asked for by a 410 at any one delivered count
            && forall v :: Count(r.log, v) <= NO_PROGRESS_LIMIT
  {
    assert Inv(policy, Start(src));
    RunKeepsInv(policy, Start(src), events);
    var r := Run(policy, Start(src), events).value;
    assert |r.calling| == |r.calling.Keys|;
  }

  /** The Sources a run has had, by generation. */
  function Sources(src: Source, log: seq<Entry>): seq<Source> {
    [src] + seq(|log|, k requires 0 <= k < |log| => log[k].src)
  }

  ghost predicate InForce(first: Source, r: State) {
    |r.log| == r.s.gen && r.s.src == Sources(first, r.log)[r.s.gen]
  }

  lemma {:induction false} StepLogsAnswer(policy: Policy, r: State, e: Event, first: Source)
    requires Step(policy, r, e).Some? && InForce(first, r)
    ensures var r' := Step(policy, r, e).value;
            Sources(first, r'.log) == Sources(first, r.log) + AnswerOf(e) && InForce(first, r')
            && r'.s.delivered == r.s.delivered + Landed([e])
  {
  }

  lemma {:induction false} RunLogsAnswers(policy: Policy, r: State, events: seq<Event>, first: Source)
    requires Run(policy, r, events).Some? && InForce(first, r)
    ensures var r' := Run(policy, r, events).value;
            Sources(first, r'.log) == Sources(first, r.log) + Answers(events) && InForce(first, r')
            && r'.s.delivered == r.s.delivered + Landed(events)
    decreases |events|
  {
    hide Step, InForce, Sources, AnswerOf;
    if events == [] {
      assert Sources(first, r.log) + [] == Sources(first, r.log);
    } else {
      StepLogsAnswer(policy, r, events[0], first);
      Regroup(Sources(first, r.log), AnswerOf(events[0]), Answers(events[1..]));
      RunLogsAnswers(policy, Step(policy, r, events[0]).value, events[1..], first);
    }
  }

  /** What the callback answers comes into force at once and stays until its next answer:
      generation k has the k-th answer, and generation zero the first Source. No delivery
      goes uncounted. */
  lemma {:induction false} SourceInForce(policy: Policy, src: Source, events: seq<Event>)
    requires Run(policy, Start(src), events).Some?
    ensures var r := Run(policy, Start(src), events).value;
            var sources := [src] + Answers(events);
            && |sources| == r.s.gen + 1 && r.s.src == sources[r.s.gen] && Sources(src, r.log) == sources
            && r.s.delivered == Landed(events)
  {
    RunLogsAnswers(policy, Start(src), events, src);
    assert Sources(src, []) == [src];
  }

  /** When a renewal is declined, told from the log: with the limit used up at the very count
      of bytes delivered now, which never stops a 410, or with the budget used up. */
  lemma {:induction false} BailIsEarned(policy: Policy, src: Source, events: seq<Event>, gen: nat, gone: bool)
    requires Run(policy, Start(src), events).Some?
    ensures var r := Run(policy, Start(src), events).value;
            var d, limited := Decide(policy, r.s, gen, gone), !gone && Count(r.log, r.s.delivered) == NO_PROGRESS_LIMIT;
            && (d == Declined(NoProgress(r.s.delivered, NO_PROGRESS_LIMIT)) <==> gen == r.s.gen && policy.hasRefresh && limited)
            && (d == Declined(BudgetSpent) <==> gen == r.s.gen && policy.hasRefresh && !limited && |r.log| == policy.maxRef)
            && (d.Declined? && d.err.NoProgress? ==> d.err == NoProgress(r.s.delivered, NO_PROGRESS_LIMIT))
  {
    assert Inv(policy, Start(src));
    RunKeepsInv(policy, Start(src), events);
  }

  /** Renew as one call is Enter followed by Leave, so the method and the machine agree. */
  lemma {:induction false} RenewIsEnterThenLeave(policy: Policy, r: State, w: nat, gen: nat, gone: bool, answer: Option<Source>)
    requires r.mutex.None? && gen <= r.s.gen && r.calling == map[]
    ensures var entered := Step(policy, r, Enter(w, gen, gone));
            entered.Some?
            && (w !in entered.value.calling ==> entered.value.s == Renewed(policy, r.s, gen, gone, answer).0)
            && (w in entered.value.calling ==>
                  Step(policy, entered.value, Leave(w, answer)).Some?
                  && Step(policy, entered.value, Leave(w, answer)).value.s == Renewed(policy, r.s, gen, gone, answer).0)
  {
  }
}
