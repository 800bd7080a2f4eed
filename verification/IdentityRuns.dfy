/** Every interleaving of extractions and rotations over one client. A call takes the
    mutex, may be away at the provider (or the homepage) while it holds it, and lets go
    when the answer is in; sessions learn and bind at any time, under no lock. */
module IdentityRuns {
  import opened Common
  import opened Identity

  // ---------- adopted sessions ----------

  datatype Call = Resolving | Rotating(gen: nat)

  /** identityOf records the session resolved in each generation, retired the
      generations whose rotation took effect, reported what the provider was told. */
  datatype Adopting = Adopting(
    a: Adoption,
    seqNo: nat,
    mutex: Option<nat>,
    calls: map<nat, Call>,
    sessions: map<nat, SessionState>,
    identityOf: map<nat, External>,
    retired: seq<nat>,
    reported: seq<nat>)

  datatype Event =
    | Extract(id: nat)                             // newBootstrappedSession begins
    | ProviderAnswers(id: nat, answer: Provided)
    | Rotate(id: nat, gen: nat)                    // RotateIdentity begins
    | ReportAnswers(id: nat, accepted: bool)
    | LearnData(id: nat, visitorData: string)
    | BindToken(id: nat)
    | ResetBinding(id: nat)

  /** The adopted session an extraction starts with, stamped under the lock. */
  function Stamped(session: External, seqNo: nat): SessionState {
    SessionState(session.visitorData, Adopted, false, seqNo)
  }

  function Release(r: Adopting, id: nat): Adopting {
    r.(mutex := None, calls := r.calls - {id})
  }

  function Next(r: Adopting, e: Event): Option<Adopting> {
    match e
    case Extract(id) =>
      if r.mutex.Some? || id in r.sessions || id in r.calls then None
      else if r.a.failed then Some(r)
      else if r.a.resolved.Some? then Some(r.(sessions := r.sessions[id := Stamped(r.a.resolved.value, r.seqNo)]))
      else Some(r.(mutex := Some(id), calls := r.calls[id := Resolving]))
    case ProviderAnswers(id, answer) =>
      if id !in r.calls || !r.calls[id].Resolving? then None
      else
        var a' := Resolved(r.a, answer);
        var back := Release(r, id).(a := a');
        if a'.resolved.None? then Some(back)
        else Some(back.(sessions := r.sessions[id := Stamped(a'.resolved.value, r.seqNo)],
                        identityOf := r.identityOf[r.seqNo := a'.resolved.value]))
    case Rotate(id, gen) =>
      if r.mutex.Some? || id in r.calls then None
      else if DecideRotation(r.a, r.seqNo, gen).Report? then
        Some(r.(mutex := Some(id), calls := r.calls[id := Rotating(gen)],
                reported := r.reported + [DecideRotation(r.a, r.seqNo, gen).generation]))
      else Some(r)
    case ReportAnswers(id, accepted) =>
      if id !in r.calls || !r.calls[id].Rotating? then None
      else if !accepted then Some(Release(r, id))
      else Some(Release(r, id).(a := r.a.(resolved := None), seqNo := r.seqNo + 1, retired := r.retired + [r.calls[id].gen]))
    case LearnData(id, vd) =>
      if id !in r.sessions then None else Some(r.(sessions := r.sessions[id := Learn(r.sessions[id], vd)]))
    case BindToken(id) =>
      if id !in r.sessions then None else Some(r.(sessions := r.sessions[id := r.sessions[id].(potBound := true)]))
    case ResetBinding(id) =>
      if id !in r.sessions then None else Some(r.(sessions := r.sessions[id := r.sessions[id].(potBound := false)]))
  }

  function Run(r: Adopting, events: seq<Event>): Option<Adopting>
    decreases |events|
  {
    if events == [] then Some(r)
    else
      match Next(r, events[0])
      case None => None
      case Some(r') => Run(r', events[1..])
  }

  /** A fixed Session is resolved from the start and never versioned. */
  function Start(fixed: Option<External>): Adopting {
    Adopting(Adoption(fixed, false), 0, None, map[], map[],
             if fixed.Some? then map[0 := fixed.value] else map[], [], [])
  }

  ghost predicate CallOk(r: Adopting, c: Call) {
    match c
    case Resolving => r.a.resolved.None? && !r.a.failed && r.calls.Keys !! r.sessions.Keys
    case Rotating(gen) => gen == r.seqNo && r.a.resolved.Some?
  }

  ghost predicate Inv(r: Adopting) {
    && r.calls.Keys == (if r.mutex.Some? then {r.mutex.value} else {})
    && (forall id :: id in r.calls ==> CallOk(r, r.calls[id]))
    // at most one identity is resolved in a generation, and the one in force is its
    && (forall g :: g in r.identityOf ==> g <= r.seqNo)
    && (r.seqNo in r.identityOf <==> r.a.resolved.Some?)
    && (r.a.resolved.Some? ==> r.identityOf[r.seqNo] == r.a.resolved.value)
    && (forall id :: id in r.sessions ==>
          var s := r.sessions[id];
          s.source == Adopted && s.identityGen in r.identityOf && s.visitorData == r.identityOf[s.identityGen].visitorData)
    && r.retired == seq(r.seqNo, k => k)
    && (forall k :: 0 <= k < |r.reported| ==>
          Names(r.identityOf, r.reported[k]))
  }

  /** The provider generation of some session that was really resolved. */
  ghost predicate Names(identityOf: map<nat, External>, n: nat) {
    exists g :: g in identityOf && identityOf[g].generation == n
  }

  lemma {:induction false} NamesPersist(before: map<nat, External>, after: map<nat, External>, n: nat)
    requires Names(before, n)
    requires forall g :: g in before ==> g in after && after[g] == before[g]
    ensures Names(after, n)
  {
  }

  /** Neither an identity nor a session's stamp is ever rewritten. */
  ghost predicate Recorded(r: Adopting, r': Adopting) {
    && (forall g :: g in r.identityOf ==> g in r'.identityOf && r'.identityOf[g] == r.identityOf[g])
    && (forall id :: id in r.sessions ==> id in r'.sessions && r'.sessions[id].identityGen == r.sessions[id].identityGen)
  }

  lemma {:induction false} RotateKeepsInv(r: Adopting, id: nat, gen: nat)
    requires Inv(r) && Next(r, Rotate(id, gen)).Some?
    ensures Inv(Next(r, Rotate(id, gen)).value)
  {
  }

  lemma {:induction false} AnswerKeepsInv(r: Adopting, id: nat, answer: Provided)
    requires Inv(r) && Next(r, ProviderAnswers(id, answer)).Some?
    ensures Inv(Next(r, ProviderAnswers(id, answer)).value)
  {
    var r' := Next(r, ProviderAnswers(id, answer)).value;
    forall k | 0 <= k < |r.reported|
      ensures Names(r'.identityOf, r.reported[k])
    {
      NamesPersist(r.identityOf, r'.identityOf, r.reported[k]);
    }
  }

  lemma {:induction false} NextKeepsInv(r: Adopting, e: Event)
    requires Inv(r) && Next(r, e).Some?
    ensures Inv(Next(r, e).value)
  {
    match e {
      case Rotate(id, gen) => RotateKeepsInv(r, id, gen);
      case ReportAnswers(_, accepted) =>
        if accepted {
          assert Next(r, e).value.retired == seq(r.seqNo + 1, k => k);
        }
      case ProviderAnswers(id, answer) => AnswerKeepsInv(r, id, answer);
      case _ =>
    }
  }

  lemma {:induction false} NextRecords(r: Adopting, e: Event)
    requires Inv(r) && Next(r, e).Some?
    ensures Recorded(r, Next(r, e).value)
  {
  }

  lemma {:induction false} RunKeepsInv(r: Adopting, events: seq<Event>)
    requires Inv(r) && Run(r, events).Some?
    ensures Inv(Run(r, events).value) && Recorded(r, Run(r, events).value)
    decreases |events|
  {
    if events != [] {
      NextKeepsInv(r, events[0]);
      NextRecords(r, events[0]);
      RunKeepsInv(Next(r, events[0]).value, events[1..]);
    }
  }

  lemma {:induction false} StartIsOk(fixed: Option<External>)
    ensures Inv(Start(fixed))
  {
  }

  /** All adopted sessions stamped with a generation carry the one identity resolved in
      it, whatever they were told by responses since. */
  lemma {:induction false} OneIdentityPerGeneration(fixed: Option<External>, events: seq<Event>, x: nat, y: nat)
    requires Run(Start(fixed), events).Some?
    requires var r := Run(Start(fixed), events).value;
             x in r.sessions && y in r.sessions && r.sessions[x].identityGen == r.sessions[y].identityGen
    ensures var r := Run(Start(fixed), events).value;
            r.sessions[x].source == Adopted && r.sessions[x].visitorData == r.sessions[y].visitorData
  {
    StartIsOk(fixed);
    RunKeepsInv(Start(fixed), events);
  }

  /** ... and for life: it is still the same after any further run. */
  lemma {:induction false} SessionsKeepTheirIdentity(fixed: Option<External>, events: seq<Event>, more: seq<Event>, id: nat)
    requires Run(Start(fixed), events).Some?
    requires Run(Run(Start(fixed), events).value, more).Some?
    requires id in Run(Start(fixed), events).value.sessions
    ensures var r, r' := Run(Start(fixed), events).value, Run(Run(Start(fixed), events).value, more).value;
            id in r'.sessions
            && r'.sessions[id].identityGen == r.sessions[id].identityGen
            && r'.sessions[id].visitorData == r.sessions[id].visitorData
  {
    StartIsOk(fixed);
    RunKeepsInv(Start(fixed), events);
    RunKeepsInv(Run(Start(fixed), events).value, more);
  }

  /** Each generation is retired at most once, in order: the rotations that took effect
      are exactly those of the generations before the current one. */
  lemma {:induction false} EachGenerationRetiresOnce(fixed: Option<External>, events: seq<Event>)
    requires Run(Start(fixed), events).Some?
    ensures var r := Run(Start(fixed), events).value;
            |r.retired| == r.seqNo && forall k :: 0 <= k < r.seqNo ==> r.retired[k] == k
  {
    StartIsOk(fixed);
    RunKeepsInv(Start(fixed), events);
  }

  /** A call naming an older generation changes nothing, so a stale 403 never reaches
      the replacement. */
  lemma {:induction false} StaleRotationIsInert(r: Adopting, id: nat, gen: nat)
    requires Next(r, Rotate(id, gen)).Some? && gen != r.seqNo
    ensures Next(r, Rotate(id, gen)).value == r
  {
  }

  /** A rotation takes effect only on the identity of the generation it named: when it
      does, that is the one that was in force, and no session of it is started later. */
  lemma {:induction false} RotationRetiresWhatItNamed(fixed: Option<External>, events: seq<Event>, id: nat)
    requires Run(Start(fixed), events).Some?
    requires var r := Run(Start(fixed), events).value; id in r.calls && r.calls[id].Rotating?
    ensures var r := Run(Start(fixed), events).value;
            var after := Next(r, ReportAnswers(id, true)).value;
            var g := r.calls[id].gen;
            && g in r.identityOf && r.a.resolved == Some(r.identityOf[g])
            && after.a.resolved.None? && after.seqNo == g + 1
            && after.sessions == r.sessions && after.identityOf == r.identityOf
            && Inv(after)
  {
    StartIsOk(fixed);
    RunKeepsInv(Start(fixed), events);
    NextKeepsInv(Run(Start(fixed), events).value, ReportAnswers(id, true));
  }

  // ---------- guest sessions ----------

  /** issued records, per extraction that got a bootstrapped identity, its generation
      and the visitorData; loadedIn what was loaded from the homepage in each generation. */
  datatype Guests = Guests(
    cache: Option<string>,
    seqNo: nat,
    mutex: Option<nat>,
    issued: seq<(nat, string)>,
    loadedIn: map<nat, string>,
    retired: seq<nat>)

  datatype GuestEvent =
    | Bootstrap(id: nat)
    | PageAnswers(id: nat, page: Option<string>)
    | RotateGuests(gen: nat)

  function NextGuest(r: Guests, e: GuestEvent): Option<Guests> {
    match e
    case Bootstrap(id) =>
      if r.mutex.Some? then None
      else if r.cache.Some? then Some(r.(issued := r.issued + [(r.seqNo, r.cache.value)]))
      else Some(r.(mutex := Some(id)))
    case PageAnswers(id, page) =>
      if r.mutex != Some(id) then None
      else if page.None? then Some(r.(mutex := None))
      else Some(r.(mutex := None, cache := page, issued := r.issued + [(r.seqNo, page.value)],
                   loadedIn := r.loadedIn[r.seqNo := page.value]))
    case RotateGuests(gen) =>
      if r.mutex.Some? then None
      else if gen != r.seqNo then Some(r)
      else Some(r.(cache := None, seqNo := r.seqNo + 1, retired := r.retired + [gen]))
  }

  function RunGuests(r: Guests, events: seq<GuestEvent>): Option<Guests>
    decreases |events|
  {
    if events == [] then Some(r)
    else
      match NextGuest(r, events[0])
      case None => None
      case Some(r') => RunGuests(r', events[1..])
  }

  const NoGuests: Guests := Guests(None, 0, None, [], map[], [])

  ghost predicate GuestInv(r: Guests) {
    && (r.cache.Some? ==> r.mutex.None?)
    && (forall g :: g in r.loadedIn ==> g <= r.seqNo)
    && (r.seqNo in r.loadedIn <==> r.cache.Some?)
    && (r.cache.Some? ==> r.loadedIn[r.seqNo] == r.cache.value)
    && (forall k :: 0 <= k < |r.issued| ==> r.issued[k].0 in r.loadedIn && r.loadedIn[r.issued[k].0] == r.issued[k].1)
    && r.retired == seq(r.seqNo, k => k)
  }

  lemma {:induction false} NextKeepsGuests(r: Guests, e: GuestEvent)
    requires GuestInv(r) && NextGuest(r, e).Some?
    ensures GuestInv(NextGuest(r, e).value)
  {
  }

  lemma {:induction false} RunKeepsGuests(r: Guests, events: seq<GuestEvent>)
    requires GuestInv(r) && RunGuests(r, events).Some?
    ensures GuestInv(RunGuests(r, events).value)
    decreases |events|
  {
    if events != [] {
      NextKeepsGuests(r, events[0]);
      RunKeepsGuests(NextGuest(r, events[0]).value, events[1..]);
    }
  }

  /** A cached guest identity was loaded in the generation in force, extractions stamped
      alike start from the same visitorData, and each generation is retired once. */
  lemma {:induction false} GuestGenerations(events: seq<GuestEvent>)
    requires RunGuests(NoGuests, events).Some?
    ensures var r := RunGuests(NoGuests, events).value;
            && (r.cache.Some? ==> r.seqNo in r.loadedIn && r.loadedIn[r.seqNo] == r.cache.value)
            && (forall i, j :: 0 <= i < j < |r.issued| && r.issued[i].0 == r.issued[j].0 ==> r.issued[i].1 == r.issued[j].1)
            && |r.retired| == r.seqNo && forall k :: 0 <= k < r.seqNo ==> r.retired[k] == k
  {
    RunKeepsGuests(NoGuests, events);
  }
}
