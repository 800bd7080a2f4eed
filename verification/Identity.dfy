/** youtube/session.go, youtube/bootstrap.go and the adoption half of youtube/client.go:
    the identity a client shares between its extractions, and how it is retired. */
module Identity {
  import opened Common

  // ---------- session.go ----------

  datatype VisitorSource = Synthetic | Bootstrapped | Adopted

  datatype SessionState = SessionState(visitorData: string, source: VisitorSource, potBound: bool, identityGen: nat)

  function Learn(s: SessionState, visitorData: string): SessionState {
    if visitorData == "" || s.potBound || s.source == Adopted then s
    else s.(visitorData := visitorData, source := Bootstrapped)
  }

  class Session {
    var visitorData: string
    var source: VisitorSource
    var potBound: bool
    var identityGen: nat

    function State(): SessionState
      reads this
    {
      SessionState(visitorData, source, potBound, identityGen)
    }

    constructor (synthetic: string, gen: nat)
      ensures State() == SessionState(synthetic, Synthetic, false, gen)
    {
      visitorData, source, potBound, identityGen := synthetic, Synthetic, false, gen;
    }

    method LearnVisitorData(vd: string)
      modifies this
      ensures State() == Learn(old(State()), vd)
      // what a response says is taken unless something pins the old value
      ensures vd != "" && old(source) != Adopted && !old(potBound) ==> visitorData == vd && source == Bootstrapped
      ensures potBound == old(potBound) && identityGen == old(identityGen)
      ensures old(source) == Adopted || old(potBound) ==> visitorData == old(visitorData)
    {
      if vd == "" || potBound || source == Adopted {
        return;
      }
      visitorData, source := vd, Bootstrapped;
    }

    method AdoptVisitorData(vd: string, gen: nat)
      modifies this
      ensures State() == SessionState(vd, Adopted, old(potBound), gen)
    {
      visitorData, source, identityGen := vd, Adopted, gen;
    }

    method BindPOToken()
      modifies this
      ensures State() == old(State()).(potBound := true)
    {
      potBound := true;
    }

    method ResetPOBinding()
      modifies this
      ensures State() == old(State()).(potBound := false)
    {
      potBound := false;
    }
  }

  // ---------- client.go: adopted sessions ----------

  /** An external session; generation is the provider's own, 0 when it does not version. */
  datatype External = External(visitorData: string, userAgent: string, clientVersion: string, generation: nat)

  /** What a provider call brings: nothing, or a session whose cookies can be seeded or not. */
  datatype Provided = ProviderFailed | Provided(session: External, seedable: bool)

  /** The adoption fields: the resolved session if any, and the cached fatal error. */
  datatype Adoption = Adoption(resolved: Option<External>, failed: bool)

  /** resolveAdoptedSession from the provider's answer on. */
  function Resolved(a: Adoption, answer: Provided): Adoption {
    if answer.ProviderFailed? || answer.session.visitorData == "" then a
    else if !answer.seedable then a.(failed := true)
    else a.(resolved := Some(answer.session))
  }

  /** rotateAdoptedSession's decision before it reports to the provider. */
  datatype RotateDecision = AlreadyReplaced | CannotName | Report(generation: nat)

  function DecideRotation(a: Adoption, seqNo: nat, gen: nat): RotateDecision {
    if seqNo != gen then AlreadyReplaced
    else if a.resolved.None? || a.resolved.value.generation == 0 then CannotName
    else Report(a.resolved.value.generation)
  }

  /** The client fields the two arms of a rotation guard, each under its own mutex. */
  class Client {
    const adoptionConfigured: bool
    var resetSeq: nat
    var adopted: Option<External>
    var adoptFailed: bool
    var visitor: Option<string>          // the cached guest visitorData
    ghost var visitorGen: nat            // the generation that value was loaded in

    ghost predicate Valid()
      reads this
    {
      && (visitor.Some? ==> !adoptionConfigured && visitorGen == resetSeq)
      && (adopted.Some? ==> adoptionConfigured)
    }

    function State(): Adoption
      reads this
    {
      Adoption(adopted, adoptFailed)
    }

    constructor (adoptionConfigured: bool, fixed: Option<External>)
      requires fixed.Some? ==> adoptionConfigured
      ensures Valid() && this.adoptionConfigured == adoptionConfigured && resetSeq == 0 && State() == Adoption(fixed, false) && visitor.None?
    {
      this.adoptionConfigured := adoptionConfigured;
      resetSeq, adopted, adoptFailed, visitor, visitorGen := 0, fixed, false, None, 0;
    }

    /** resolveAdoptedSession; answer is what the provider would say if it were asked. */
    method ResolveAdopted(answer: Provided) returns (r: Option<(External, nat)>)
      requires Valid() && adoptionConfigured
      modifies this`adopted, this`adoptFailed
      ensures Valid()
      ensures State() == if old(adoptFailed) || old(adopted).Some? then old(State()) else Resolved(old(State()), answer)
      ensures r == if !adoptFailed && adopted.Some? then Some((adopted.value, resetSeq)) else None
    {
      if adoptFailed {
        return None;
      }
      if adopted.Some? {
        return Some((adopted.value, resetSeq));
      }
      if answer.ProviderFailed? {
        return None;
      }
      if answer.session.visitorData == "" {
        return None;
      }
      if !answer.seedable {
        adoptFailed := true;
        return None;
      }
      adopted := Some(answer.session);
      return Some((answer.session, resetSeq));
    }

    /** rotateAdoptedSession; accepts is what the provider would say to the report. */
    method RotateAdopted(gen: nat, canInvalidate: bool, accepts: bool) returns (gone: bool, reported: Option<nat>)
      requires Valid() && adoptionConfigured
      modifies this`adopted, this`resetSeq
      ensures Valid()
      ensures var d := DecideRotation(old(State()), old(resetSeq), gen);
              if canInvalidate && d.Report? && accepts then
                gone && resetSeq == old(resetSeq) + 1 && State() == old(State()).(resolved := None)
              else
                resetSeq == old(resetSeq) && State() == old(State()) && gone == (canInvalidate && d.AlreadyReplaced?)
      // only the session of the generation named is ever reported
      ensures reported.Some? ==> gen == old(resetSeq) && old(adopted).Some? && reported.value == old(adopted).value.generation
      ensures reported.Some? <==> canInvalidate && gen == old(resetSeq) && old(adopted).Some? && old(adopted).value.generation != 0
    {
      if !canInvalidate {
        return false, None;
      }
      if resetSeq != gen {
        return true, None;
      }
      if adopted.None? || adopted.value.generation == 0 {
        return false, None;
      }
      reported := Some(adopted.value.generation);
      if !accepts {
        return false, reported;
      }
      adopted := None;
      resetSeq := resetSeq + 1;
      return true, reported;
    }

    /** bootstrapVisitorData; page is what the homepage would give. */
    method BootstrapVisitorData(page: Option<string>) returns (vd: Option<string>, gen: nat)
      requires Valid() && !adoptionConfigured
      modifies this`visitor, this`visitorGen
      ensures Valid() && gen == resetSeq
      ensures vd == visitor && visitor == (if old(visitor).Some? then old(visitor) else page)
    {
      if visitor.None? {
        visitor, visitorGen := page, resetSeq;
      }
      return visitor, resetSeq;
    }

    /** The guest arm of RotateIdentity. */
    method RotateGuest(gen: nat, hasJar: bool) returns (gone: bool)
      requires Valid() && !adoptionConfigured
      modifies this`visitor, this`resetSeq
      ensures Valid() && gone == hasJar
      ensures if hasJar && gen == old(resetSeq) then visitor.None? && resetSeq == gen + 1
              else visitor == old(visitor) && resetSeq == old(resetSeq)
    {
      if !hasJar {
        return false;
      }
      if resetSeq != gen {
        return true;
      }
      visitor := None;
      resetSeq := resetSeq + 1;
      return true;
    }

    /** RotateIdentity: true means the identity of the generation named is no longer in force. */
    method RotateIdentity(gen: nat, canInvalidate: bool, accepts: bool, hasJar: bool) returns (gone: bool)
      requires Valid()
      modifies this`adopted, this`visitor, this`resetSeq
      ensures Valid()
      ensures gone && gen <= old(resetSeq) ==> resetSeq > gen
      ensures resetSeq != old(resetSeq) ==> gone && gen == old(resetSeq) && resetSeq == gen + 1 && adopted.None? && visitor.None?
      ensures resetSeq == old(resetSeq) ==> adopted == old(adopted) && visitor == old(visitor)
    {
      if adoptionConfigured {
        var retired, _ := RotateAdopted(gen, canInvalidate, accepts);
        gone := retired;
      } else {
        gone := RotateGuest(gen, hasJar);
      }
    }
  }
}
