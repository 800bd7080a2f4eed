/** The calls of Identity's Client as runs of IdentityRuns' machines: what is proved of
    every run holds of whatever is done with a client. */
module IdentityReplay {
  import opened Common
  import opened Identity
  import opened IdentityRuns

  lemma {:induction false} RunConcat(r: Adopting, a: seq<Event>, b: seq<Event>)
    requires Run(r, a).Some?
    ensures Run(r, a + b) == Run(Run(r, a).value, b)
    decreases |a|
  {
    if a == [] {
      assert a + b == b;
    } else {
      assert (a + b)[1..] == a[1..] + b;
      RunConcat(Next(r, a[0]).value, a[1..], b);
    }
  }

  // ---------- adopted sessions ----------

  /** A run of the machine has come to what the client holds, with no call under way. */
  ghost predicate Replays(c: Client, fixed: Option<External>, past: seq<Event>, r: Adopting)
    reads c
  {
    && Run(Start(fixed), past) == Some(r)
    && r.a == c.State() && r.seqNo == c.resetSeq && r.mutex.None? && r.calls == map[]
  }

  /** A new client has the empty run behind it. */
  lemma {:induction false} Begins(c: Client, fixed: Option<External>)
    requires c.resetSeq == 0 && c.State() == Adoption(fixed, false)
    ensures Replays(c, fixed, [], Start(fixed))
    ensures c.visitor.None? ==> ReplaysGuests(c, [], NoGuests)
  {
  }

  /** A call that the provider is asked in comes and goes. */
  lemma {:induction false} Resolves(r: Adopting, id: nat, answer: Provided) returns (events: seq<Event>)
    requires r.mutex.None? && r.calls == map[] && id !in r.sessions
    ensures Run(r, events).Some?
    ensures var r' := Run(r, events).value;
            && r'.mutex.None? && r'.calls == map[] && r'.seqNo == r.seqNo && r'.reported == r.reported
            && r'.a == (if r.a.failed || r.a.resolved.Some? then r.a else Resolved(r.a, answer))
            && r'.sessions == if !r'.a.failed && r'.a.resolved.Some? then r.sessions[id := Stamped(r'.a.resolved.value, r.seqNo)] else r.sessions
  {
    if r.a.failed || r.a.resolved.Some? {
      events := [Extract(id)];
    } else {
      events := [Extract(id), ProviderAnswers(id, answer)];
      var inside := Next(r, Extract(id)).value;
      assert events[1..] == [ProviderAnswers(id, answer)];
      assert Run(inside, events[1..]) == Next(inside, ProviderAnswers(id, answer));
      assert r.calls[id := Resolving] - {id} == map[];
    }
  }

  /** The same for a rotation; without a way to report, the machine is not entered. */
  lemma {:induction false} Rotates(r: Adopting, id: nat, gen: nat, canInvalidate: bool, accepts: bool) returns (events: seq<Event>)
    requires r.mutex.None? && r.calls == map[]
    ensures Run(r, events).Some?
    ensures var r' := Run(r, events).value;
            var asked := canInvalidate && DecideRotation(r.a, r.seqNo, gen).Report?;
            && r'.mutex.None? && r'.calls == map[] && r'.sessions == r.sessions
            && (asked && accepts ==> r'.seqNo == r.seqNo + 1 && r'.a == r.a.(resolved := None) && r'.retired == r.retired + [gen])
            && (!(asked && accepts) ==> r'.seqNo == r.seqNo && r'.a == r.a && r'.retired == r.retired)
            && r'.reported == if asked then r.reported + [DecideRotation(r.a, r.seqNo, gen).generation] else r.reported
  {
    if !canInvalidate {
      events := [];
    } else if !DecideRotation(r.a, r.seqNo, gen).Report? {
      events := [Rotate(id, gen)];
    } else {
      events := [Rotate(id, gen), ReportAnswers(id, accepts)];
      var inside := Next(r, Rotate(id, gen)).value;
      assert events[1..] == [ReportAnswers(id, accepts)];
      assert Run(inside, events[1..]) == Next(inside, ReportAnswers(id, accepts));
      assert r.calls[id := Rotating(gen)] - {id} == map[];
    }
  }

  /** resolveAdoptedSession, on record: the machine's extraction gets the session handed out. */
  method Resolve(c: Client, answer: Provided, ghost fixed: Option<External>, ghost past: seq<Event>, ghost r: Adopting, ghost id: nat)
    returns (got: Option<(External, nat)>, ghost events: seq<Event>, ghost r': Adopting)
    requires c.Valid() && c.adoptionConfigured && Replays(c, fixed, past, r) && id !in r.sessions
    modifies c`adopted, c`adoptFailed
    ensures c.Valid() && Replays(c, fixed, past + events, r')
    ensures r'.sessions == if got.Some? then r.sessions[id := Stamped(got.value.0, got.value.1)] else r.sessions
  {
    events := Resolves(r, id, answer);
    RunConcat(Start(fixed), past, events);
    r' := Run(r, events).value;
    got := c.ResolveAdopted(answer);
  }

  /** rotateAdoptedSession, on record: what the provider is told and what is retired are the
      machine's. */
  method RotateSession(c: Client, gen: nat, canInvalidate: bool, accepts: bool,
                       ghost fixed: Option<External>, ghost past: seq<Event>, ghost r: Adopting, ghost id: nat)
    returns (gone: bool, reported: Option<nat>, ghost events: seq<Event>, ghost r': Adopting)
    requires c.Valid() && c.adoptionConfigured && Replays(c, fixed, past, r)
    modifies c`adopted, c`resetSeq
    ensures c.Valid() && Replays(c, fixed, past + events, r') && r'.sessions == r.sessions
    ensures r'.reported == if reported.Some? then r.reported + [reported.value] else r.reported
    ensures gone && gen <= r.seqNo ==> gen in r'.retired
    ensures !gone ==> r'.retired == r.retired
  {
    events := Rotates(r, id, gen, canInvalidate, accepts);
    RunConcat(Start(fixed), past, events);
    r' := Run(r, events).value;
    gone, reported := c.RotateAdopted(gen, canInvalidate, accepts);
    EachGenerationRetiresOnce(fixed, past + events);
    assert gen < r'.seqNo ==> r'.retired[gen] == gen;
  }

  // ---------- guest sessions ----------

  lemma {:induction false} RunGuestsConcat(r: Guests, a: seq<GuestEvent>, b: seq<GuestEvent>)
    requires RunGuests(r, a).Some?
    ensures RunGuests(r, a + b) == RunGuests(RunGuests(r, a).value, b)
    decreases |a|
  {
    if a == [] {
      assert a + b == b;
    } else {
      assert (a + b)[1..] == a[1..] + b;
      RunGuestsConcat(NextGuest(r, a[0]).value, a[1..], b);
    }
  }

  ghost predicate ReplaysGuests(c: Client, past: seq<GuestEvent>, r: Guests)
    reads c
  {
    && RunGuests(NoGuests, past) == Some(r)
    && r.cache == c.visitor && r.seqNo == c.resetSeq && r.mutex.None?
  }

  lemma {:induction false} Bootstraps(r: Guests, id: nat, page: Option<string>) returns (events: seq<GuestEvent>)
    requires r.mutex.None?
    ensures RunGuests(r, events).Some?
    ensures var r' := RunGuests(r, events).value;
            && r'.mutex.None? && r'.seqNo == r.seqNo && r'.retired == r.retired
            && r'.cache == (if r.cache.Some? then r.cache else page)
            && r'.issued == if r'.cache.Some? then r.issued + [(r.seqNo, r'.cache.value)] else r.issued
  {
    if r.cache.Some? {
      events := [Bootstrap(id)];
    } else {
      events := [Bootstrap(id), PageAnswers(id, page)];
      var inside := NextGuest(r, Bootstrap(id)).value;
      assert events[1..] == [PageAnswers(id, page)];
      assert RunGuests(inside, [PageAnswers(id, page)]) == NextGuest(inside, PageAnswers(id, page));
    }
  }

  /** bootstrapVisitorData, on record: what it hands out is what the machine issues. */
  method BootstrapGuest(c: Client, page: Option<string>, ghost past: seq<GuestEvent>, ghost r: Guests, ghost id: nat)
    returns (vd: Option<string>, gen: nat, ghost events: seq<GuestEvent>, ghost r': Guests)
    requires c.Valid() && !c.adoptionConfigured && ReplaysGuests(c, past, r)
    modifies c`visitor, c`visitorGen
    ensures c.Valid() && ReplaysGuests(c, past + events, r')
    ensures r'.issued == if vd.Some? then r.issued + [(gen, vd.value)] else r.issued
  {
    events := Bootstraps(r, id, page);
    RunGuestsConcat(NoGuests, past, events);
    r' := RunGuests(r, events).value;
    vd, gen := c.BootstrapVisitorData(page);
  }

  /** The guest arm of RotateIdentity, on record; without a jar the machine is not entered. */
  method RotateGuestIdentity(c: Client, gen: nat, hasJar: bool, ghost past: seq<GuestEvent>, ghost r: Guests)
    returns (gone: bool, ghost events: seq<GuestEvent>, ghost r': Guests)
    requires c.Valid() && !c.adoptionConfigured && ReplaysGuests(c, past, r)
    modifies c`visitor, c`resetSeq
    ensures c.Valid() && ReplaysGuests(c, past + events, r') && r'.issued == r.issued
    ensures gone && gen <= r.seqNo ==> gen in r'.retired
    ensures !gone ==> r'.retired == r.retired
  {
    events := if hasJar then [RotateGuests(gen)] else [];
    RunGuestsConcat(NoGuests, past, events);
    r' := RunGuests(r, events).value;
    gone := c.RotateGuest(gen, hasJar);
    GuestGenerations(past + events);
    assert gen < r'.seqNo ==> r'.retired[gen] == gen;
  }

  // ---------- what follows for a client ----------

  /** Two extractions a client has served in one generation started from one identity,
      whatever was rotated in between and whatever their sessions were told since. */
  lemma {:induction false} ClientKeepsOneIdentity(c: Client, fixed: Option<External>, past: seq<Event>, r: Adopting, x: nat, y: nat)
    requires Replays(c, fixed, past, r) && x in r.sessions && y in r.sessions && r.sessions[x].identityGen == r.sessions[y].identityGen
    ensures r.sessions[x].visitorData == r.sessions[y].visitorData
    ensures c.adopted.Some? && r.sessions[x].identityGen == c.resetSeq ==> r.sessions[x].visitorData == c.adopted.value.visitorData
    ensures forall g :: g in r.retired <==> 0 <= g < c.resetSeq
  {
    OneIdentityPerGeneration(fixed, past, x, y);
    EachGenerationRetiresOnce(fixed, past);
    StartIsOk(fixed);
    RunKeepsInv(Start(fixed), past);
    forall g
      ensures g in r.retired <==> 0 <= g < c.resetSeq
    {
      if 0 <= g < c.resetSeq {
        assert r.retired[g] == g;
      }
    }
  }
}
