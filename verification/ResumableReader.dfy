/** download/stream.go: one sequential byte stream over a Source that may expire, drop
    and resume. */
module ResumableReader {
  import opened Common
  import opened ByteRange
  import opened Fetching
  import opened Ladder

  /** learn's new total: the Content-Length of the very first reply, otherwise the
      complete length a Content-Range states. */
  function Learned(total: int, offset: nat, resp: Response): int {
    if total > 0 then total
    else if offset == 0 && resp.contentLength > 0 then resp.contentLength
    else if resp.span.Some? && resp.span.value.total > 0 then resp.span.value.total
    else total
  }

  /** Whether the end of a body is the end of the stream. */
  predicate Completes(ending: Ending, total: int, offset: nat) {
    ending.Eof? && (total <= 0 || offset >= total)
  }

  /** The total a first reply teaches is the resource's length unless the reply carries
      a Content-Length that is not. */
  lemma {:induction false} LearnedTotalIsTrueUnlessPartial(resource: seq<byte>, total: int, offset: nat, resp: Response)
    requires total <= 0 && TruthfulSpan(resource, resp)
    requires Learned(total, offset, resp) > 0
    ensures Learned(total, offset, resp) == |resource|
       <==> !(offset == 0 && resp.contentLength > 0 && resp.contentLength != |resource|)
  {
  }

  /** A first reply may lawfully be a part of the resource. When it is read to its clean
      end with no length known before, the stream is reported complete, wrongly, exactly
      when the reply states a Content-Length or no complete length. */
  lemma {:induction false} PartialFirstReplyVerdict(resource: seq<byte>, strategy: Strategy, resp: Response)
    requires HonestReply(resource, strategy, 0, -1, resp)
    requires Validate(strategy, resp, 0, -1) == Accepted
    requires 0 < |resp.body| < |resource|
    ensures Completes(Eof, Learned(0, 0, resp), |resp.body|)
       <==> (resp.contentLength != -1 || resp.span.None? || resp.span.value.total == 0)
  {
  }

  /** Such replies exist for every resource of two bytes or more: any proper front of it,
      labelled as what it is, is accepted and completes the stream. */
  lemma {:induction false} TruncationIsReportedComplete(resource: seq<byte>, n: nat)
    requires 0 < n < |resource|
    ensures var resp := Response(206, Some(ContentRange(0, n - 1, |resource|)), n, resource[..n]);
            && HonestReply(resource, HeaderRange, 0, -1, resp)
            && Validate(HeaderRange, resp, 0, -1) == Accepted
            && Completes(Eof, Learned(0, 0, resp), |resp.body|)
            && |resp.body| < |resource|
  {
    assert resource[0..n] == resource[..n];
  }

  // ---------- the total over a whole run ----------

  /** A reply that was opened, and where. */
  datatype Given = Given(offset: nat, resp: Response)

  /** The total after some replies, when the Source stated this length. */
  function Total(stated: int, replies: seq<Given>): int {
    if replies == [] then stated
    else
      var last := replies[|replies| - 1];
      Learned(Total(stated, replies[..|replies| - 1]), last.offset, last.resp)
  }

  /** A reply that states a length: the complete length in its Content-Range, wherever it
      starts, or, from the start, a Content-Length. */
  predicate Teaches(g: Given) {
    (g.resp.span.Some? && g.resp.span.value.total > 0) || (g.offset == 0 && g.resp.contentLength > 0)
  }

  /** A length was stated, by the Source or by a reply. */
  ghost predicate LengthStated(stated: int, replies: seq<Given>) {
    stated > 0 || exists k :: 0 <= k < |replies| && Teaches(replies[k])
  }

  /** The first reply to state one does so at offset zero, by a Content-Length that is short
      of the resource. */
  predicate MisleadsAt(size: nat, replies: seq<Given>, k: nat) {
    && k < |replies|
    && (forall j :: 0 <= j < k ==> !Teaches(replies[j]))
    && replies[k].offset == 0 && 0 < replies[k].resp.contentLength < size
  }

  ghost predicate Misled(size: nat, stated: int, replies: seq<Given>) {
    stated <= 0 && exists k: nat :: MisleadsAt(size, replies, k)
  }

  /** What a truthful origin sends to an open-ended request. */
  predicate TruthfulGiven(resource: seq<byte>, g: Given) {
    g.offset <= |resource| && TruthfulLength(g.resp) && TruthfulSpan(resource, g.resp) && g.resp.body <= resource[g.offset..]
  }

  ghost predicate TruthfulReplies(resource: seq<byte>, replies: seq<Given>) {
    forall k :: 0 <= k < |replies| ==> TruthfulGiven(resource, replies[k])
  }

  /** A total is known if and only if one was stated, by whichever reply. */
  lemma {:induction false} KnownIffStated(stated: int, replies: seq<Given>)
    ensures Total(stated, replies) > 0 <==> LengthStated(stated, replies)
  {
    if replies != [] {
      var front := replies[..|replies| - 1];
      KnownIffStated(stated, front);
      assert forall j :: 0 <= j < |front| ==> replies[j] == front[j];
    }
  }

  /** What is known of the total after any run of replies: it is the resource's length unless
      the first reply to state one misled the reader. */
  lemma {:induction false} TotalVerdict(resource: seq<byte>, stated: int, replies: seq<Given>)
    requires stated > 0 ==> stated == |resource|
    requires TruthfulReplies(resource, replies)
    ensures stated > 0 ==> Total(stated, replies) == stated
    ensures Total(stated, replies) > 0 ==> (Total(stated, replies) == |resource| <==> !Misled(|resource|, stated, replies))
  {
    if replies != [] {
      var front, last := replies[..|replies| - 1], replies[|replies| - 1];
      assert forall j :: 0 <= j < |front| ==> replies[j] == front[j];
      TotalVerdict(resource, stated, front);
      if stated <= 0 {
        KnownIffStated(stated, front);
        MisledByFront(|resource|, stated, front, last);
        assert replies == front + [last];
      }
    }
  }

  lemma {:induction false} MisledByFront(size: nat, stated: int, front: seq<Given>, last: Given)
    requires stated <= 0
    ensures (exists j :: 0 <= j < |front| && Teaches(front[j])) ==>
              (Misled(size, stated, front + [last]) <==> Misled(size, stated, front))
    ensures (forall j :: 0 <= j < |front| ==> !Teaches(front[j])) ==>
              (Misled(size, stated, front + [last]) <==> last.offset == 0 && 0 < last.resp.contentLength < size)
  {
    var all := front + [last];
    assert forall j :: 0 <= j < |front| ==> all[j] == front[j];
    forall k: nat | k < |front|
      ensures MisleadsAt(size, all, k) <==> MisleadsAt(size, front, k)
    {
    }
    assert MisleadsAt(size, all, |front|) <==>
           (forall j :: 0 <= j < |front| ==> !Teaches(front[j])) && last.offset == 0 && 0 < last.resp.contentLength < size;
  }

  /** Whether a reply that states its span misleads can be read off its headers. */
  lemma {:induction false} MisleadingHeaders(resource: seq<byte>, resp: Response)
    requires TruthfulLength(resp) && TruthfulSpan(resource, resp)
    requires resp.span.Some? && resp.span.value.first == 0 && resp.span.value.total > 0 && resp.contentLength > 0
    ensures 0 < resp.contentLength < |resource| <==> resp.span.value.last + 1 < resp.span.value.total
  {
  }

  /** What the replies make of the total. */
  ghost predicate Settled(resource: seq<byte>, stated: int, replies: seq<Given>, total: int) {
    && (stated > 0 ==> stated == |resource|)
    && total == Total(stated, replies) && TruthfulReplies(resource, replies)
    && (total > 0 <==> LengthStated(stated, replies))
    && (total > 0 ==> (total == |resource| <==> !Misled(|resource|, stated, replies)))
  }

  lemma {:induction false} OneMoreReply(resource: seq<byte>, stated: int, replies: seq<Given>, total: int, g: Given)
    requires Settled(resource, stated, replies, total)
    requires TruthfulGiven(resource, g)
    ensures Settled(resource, stated, replies + [g], Learned(total, g.offset, g.resp))
  {
    assert (replies + [g])[..|replies|] == replies;
    TotalVerdict(resource, stated, replies + [g]);
    KnownIffStated(stated, replies + [g]);
  }

  /** The reply came back to a request for the rest of the resource from its offset. */
  ghost predicate CameBack(world: World, g: Given) {
    exists x: Try :: Outcome(world, x, g.offset, -1).Opened? && Outcome(world, x, g.offset, -1).resp == g.resp
  }

  ghost predicate AllCameBack(world: World, replies: seq<Given>) {
    forall k :: 0 <= k < |replies| ==> CameBack(world, replies[k])
  }

  lemma {:induction false} OneMoreCameBack(world: World, replies: seq<Given>, g: Given)
    requires AllCameBack(world, replies) && CameBack(world, g)
    ensures AllCameBack(world, replies + [g])
  {
  }

  datatype ReadEnd = More | EndOfFile | Failed(err: Error)

  /** A front of what comes next is taken. */
  lemma {:induction false} FrontTaken(resource: seq<byte>, offset: nat, data: seq<byte>, n: nat)
    requires offset <= |resource| && data <= resource[offset..] && n <= |data|
    ensures data[..n] == resource[offset..offset + n] && data[n..] <= resource[offset + n..]
    ensures resource[..offset] + data[..n] == resource[..offset + n]
  {
    assert data[n..] == resource[offset..][n..|data|];
  }

  class Reader {
    const d: Downloader
    var body: Option<Body>
    var offset: nat
    var total: int
    var eof: bool
    var err: Option<Error>
    var resumeOffset: int
    var stalls: nat
    ghost var handed: seq<byte>          // every byte given to the caller, in order
    ghost var opens: map<nat, nat>       // successful opens by the offset they started at
    ghost const stated: int              // the length the Source stated
    ghost var replies: seq<Given>        // every reply opened, in order

    ghost function OpensHere(): nat
      reads this`offset, this`opens
    {
      if offset in opens then opens[offset] else 0
    }

    ghost predicate OpensWithin(bound: nat)
      reads this`offset, this`opens
    {
      forall o :: o in opens ==> o <= offset && opens[o] <= bound
    }

    /** The bytes handed out are exactly the front of the resource, and the body goes on there. */
    ghost predicate Delivering()
      reads this`offset, this`handed, this`body
    {
      && offset <= |d.world.resource| && handed == d.world.resource[..offset]
      && (body.Some? ==> body.value.data <= d.world.resource[offset..])
    }

    /** The total is what the replies told. */
    ghost predicate Taught()
      reads this`total, this`replies
    {
      Settled(d.world.resource, stated, replies, total) && AllCameBack(d.world, replies)
    }

    /** Resumes at one offset are bounded, and so are the bodies opened there. */
    ghost predicate StallsOk()
      reads this`body, this`offset, this`eof, this`err, this`resumeOffset, this`stalls, this`opens
    {
      && resumeOffset <= offset && stalls <= d.maxChunkRetries + 1
      && (stalls == d.maxChunkRetries + 1 ==> err.Some?)
      && OpensWithin(d.maxChunkRetries + 2)
      && (err.None? && !eof && resumeOffset == offset ==> OpensHere() <= stalls + (if body.Some? then 2 else 1))
      && (err.None? && !eof && resumeOffset != offset ==> OpensHere() <= (if body.Some? then 1 else 0))
    }

    /** Why the stream may fail: the climb for the rest from here was given up, nothing came
        of the last resumes at this offset, or the caller canceled. */
    ghost predicate Explained(e: Error)
      reads this`offset, this`resumeOffset, this`stalls, d`clock, d.shared
    {
      || GaveUp(d.world, d.shared.policy, d.maxChunkRetries, d.shared.delivered, offset, -1, e, d.clock)
      || (e == Incomplete && resumeOffset == offset && stalls > d.maxChunkRetries)
      || (e == Canceled && d.world.Canceled(d.clock))
    }

    ghost predicate Valid()
      reads this, d`clock, d.shared
    {
      && d.shared.Ok()
      && d.world.Truthful()
      && Delivering() && Taught() && StallsOk()
      && (err.Some? ==> Explained(err.value))
      && (eof ==> err.None? && (total <= 0 || offset >= total))
    }

    /** A length was stated, by the Source or by one of the replies. */
    ghost predicate LengthTold()
      reads this`replies
    {
      LengthStated(stated, replies)
    }

    /** The first reply to state a length was short of the resource, and none was known. */
    ghost predicate WasMisled()
      reads this
    {
      Misled(|d.world.resource|, stated, replies)
    }

    constructor (d: Downloader)
      requires d.shared.Ok() && d.world.Truthful()
      requires d.shared.src.contentLength > 0 ==> d.shared.src.contentLength == |d.world.resource|
      ensures Valid() && this.d == d && offset == 0 && err.None? && !eof && total == d.shared.src.contentLength
      ensures fresh(this) && body.None? && stated == total && replies == []
    {
      this.d := d;
      body, offset, total, eof, err := None, 0, d.shared.src.contentLength, false, None;
      resumeOffset, stalls := -1, 0;
      handed, opens, stated, replies := [], map[], d.shared.src.contentLength, [];
    }

    /** The request for the rest from the offset on. */
    method Ask() returns (r: Fetched)
      requires Valid() && err.None? && !eof
      modifies d`clock, d.shared
      ensures Valid() && old(d.shared.delivered) <= d.shared.delivered
      ensures r.Opened? ==>
                && TruthfulGiven(d.world.resource, Given(offset, r.resp)) && CameBack(d.world, Given(offset, r.resp))
                && r.body.data <= d.world.resource[offset..]
      ensures r.Failure? ==> Explained(r.err)
    {
      hide Reader.Taught, Reader.StallsOk, Asked, AllRetried, AllButLast, GaveUp;
      ghost var from := d.clock;
      var fetched, attempts, tries := d.FetchRetrying(offset, -1);
      r := fetched;
      if r.Opened? {
        assert CameBack(d.world, Given(offset, r.resp));
      } else {
        HasGivenUp(d.world, d.shared.policy, d.maxChunkRetries, d.Now(), tries, offset, -1, from, attempts, r.err);
      }
    }

    /** learn: the total, where it is not known yet. */
    method LearnTotal(resp: Response)
      requires Valid() && err.None? && !eof
      requires TruthfulGiven(d.world.resource, Given(offset, resp)) && CameBack(d.world, Given(offset, resp))
      modifies this`total, this`replies
      ensures Valid()
      ensures total == Learned(old(total), offset, resp) && replies == old(replies) + [Given(offset, resp)]
      ensures total == old(total) || old(total) <= 0
      // a length stated here is never missed
      ensures total > 0 <==> old(total) > 0 || Teaches(Given(offset, resp))
    {
      hide AllCameBack, Reader.StallsOk;
      OneMoreReply(d.world.resource, stated, replies, total, Given(offset, resp));
      OneMoreCameBack(d.world, replies, Given(offset, resp));
      replies := replies + [Given(offset, resp)];
      if total > 0 {
        return;
      }
      if offset == 0 && resp.contentLength > 0 {
        total := resp.contentLength;
      } else if resp.span.Some? && resp.span.value.total > 0 {
        total := resp.span.value.total;
      }
    }

    /** The opened body is the one to read from. */
    method TakeBody(b: Body)
      requires Valid() && body.None? && err.None? && !eof && b.data <= d.world.resource[offset..]
      modifies this`body, this`opens
      ensures Valid() && body == Some(b)
    {
      hide Reader.Taught;
      body := Some(b);
      opens := opens[offset := OpensHere() + 1];
    }

    /** openNext. */
    method OpenNext() returns (e: Option<Error>)
      requires Valid() && body.None? && err.None? && !eof
      modifies this`body, this`total, this`opens, this`replies, d`clock, d.shared
      ensures Valid() && old(d.shared.delivered) <= d.shared.delivered
      ensures e.None? ==> body.Some?
      ensures e.Some? ==> body.None? && replies == old(replies) && total == old(total) && Explained(e.value)
      // the reply opened here is on record, and is what the total was learned from
      ensures e.None? ==>
                && |replies| == |old(replies)| + 1 && replies[..|old(replies)|] == old(replies)
                && replies[|old(replies)|].offset == offset
                && total == Learned(old(total), offset, replies[|old(replies)|].resp)
      ensures total == old(total) || old(total) <= 0
    {
      hide *;
      var r := Ask();
      if r.Failure? {
        return Some(r.err);
      }
      LearnTotal(r.resp);
      TakeBody(r.body);
      return None;
    }

    /** One read of the open body, handed on: some bytes, or its end, or both. */
    method Pull(plen: nat) returns (got: seq<byte>, ended: bool)
      requires Valid() && err.None? && !eof && body.Some?
      modifies this`body, this`offset, this`handed, d`clock, d.shared
      ensures Valid() && body.Some? && body.value.ending == old(body).value.ending
      ensures offset == old(offset) + |got| && |got| <= plen && handed == old(handed) + got
      ensures got == d.world.resource[old(offset)..offset]
      ensures d.shared.delivered == old(d.shared.delivered) + |got|
      ensures plen > 0 ==> got != [] || ended
    {
      hide Reader.Taught, GaveUp;
      var data := body.value.data;
      var n := Min(plen, Min(1 + d.world.piece(d.clock), |data|));
      got := data[..n];
      ended := data == [] || (n == |data| && d.world.eager(d.clock));
      d.Tick();
      FrontTaken(d.world.resource, offset, data, n);
      body := Some(Body(data[n..], body.value.ending));
      if |got| > 0 {
        offset := offset + |got|;
        handed := handed + got;
        d.shared.NoteDelivered(|got|);
      }
    }

    /** guardStall: resumes at one offset are bounded. */
    method GuardStall() returns (stalled: bool)
      modifies this`resumeOffset, this`stalls
      ensures old(resumeOffset) != offset ==> resumeOffset == offset && stalls == 0 && !stalled
      ensures old(resumeOffset) == offset ==> resumeOffset == offset && stalls == old(stalls) + 1
                                              && (stalled <==> stalls > d.maxChunkRetries)
    {
      if offset != resumeOffset {
        resumeOffset, stalls := offset, 0;
        return false;
      }
      stalls := stalls + 1;
      return stalls > d.maxChunkRetries;
    }

    /** What is left before the stall guard ends the stream at this offset. */
    ghost function StallsLeft(): nat
      requires stalls <= d.maxChunkRetries + 1
      reads this
    {
      if resumeOffset != offset then d.maxChunkRetries + 2 else d.maxChunkRetries + 1 - stalls
    }

    /** The ended body is closed; the stream is over, resumes later, or fails. */
    method EndBody()
      requires Valid() && err.None? && !eof && body.Some?
      modifies this`body, this`eof, this`err, this`resumeOffset, this`stalls
      ensures Valid() && body.None?
      ensures err.None? && !eof ==> StallsLeft() < old(StallsLeft())
      ensures eof <==> Completes(old(body).value.ending, total, offset)
      ensures !eof && d.world.Canceled(d.clock) ==> err == Some(Canceled)
      ensures eof ==> err.None?
    {
      hide Settled, AllCameBack, GaveUp;
      var ending := body.value.ending;
      body := None;
      if Completes(ending, total, offset) {
        eof := true;
      } else if d.world.Canceled(d.clock) {
        err := Some(Canceled);
      } else {
        var stalled := GuardStall();
        if stalled {
          err := Some(Incomplete);
        }
      }
    }

    /** One turn on an open body. */
    method Consume(plen: nat) returns (got: seq<byte>, more: bool, end: ReadEnd)
      requires Valid() && err.None? && !eof && body.Some?
      modifies this`body, this`offset, this`handed, this`eof, this`err, this`resumeOffset, this`stalls, d`clock, d.shared
      ensures Valid()
      ensures offset == old(offset) + |got| && |got| <= plen && handed == old(handed) + got
      ensures got == d.world.resource[old(offset)..offset]
      ensures d.shared.delivered == old(d.shared.delivered) + |got|
      ensures more ==> got == [] && end == More && err.None? && !eof && StallsLeft() < old(StallsLeft())
      ensures !more && plen > 0 ==> got != [] || end != More
      ensures end.EndOfFile? <==> eof
      ensures end.Failed? ==> err == Some(end.err)
    {
      hide Reader.StallsOk, Reader.Taught, Reader.Explained;
      var ended;
      got, ended := Pull(plen);
      if !ended {
        return got, false, More;
      }
      EndBody();
      if eof {
        return got, false, EndOfFile;
      }
      if got == [] && err.Some? {
        return [], false, Failed(err.value);
      }
      return got, got == [], More;
    }

    /** One turn of Read's loop; more asks for another turn. */
    method Turn(plen: nat) returns (got: seq<byte>, more: bool, end: ReadEnd)
      requires Valid() && err.None? && !eof
      modifies this, d`clock, d.shared
      ensures Valid()
      ensures offset == old(offset) + |got| && |got| <= plen && handed == old(handed) + got
      ensures got == d.world.resource[old(offset)..offset]
      ensures old(d.shared.delivered) + |got| <= d.shared.delivered
      ensures more ==> got == [] && end == More && err.None? && !eof && StallsLeft() < old(StallsLeft())
      ensures !more && plen > 0 ==> got != [] || end != More
      ensures end.EndOfFile? <==> eof
      ensures end.Failed? ==> err == Some(end.err)
      ensures total == old(total) || old(total) <= 0
      ensures old(replies) <= replies
    {
      hide Reader.Taught, GaveUp;
      if body.None? {
        err := OpenNext();
        if err.Some? {
          assert d.world.resource[offset..offset] == [];
          return [], false, Failed(err.value);
        }
      }
      got, more, end := Consume(plen);
    }

    /** Read hands over the next bytes of the resource, hiding refreshes and resumes. */
    method Read(plen: nat) returns (got: seq<byte>, end: ReadEnd)
      requires Valid()
      modifies this, d`clock, d.shared
      ensures Valid()
      ensures offset == old(offset) + |got| && |got| <= plen && handed == old(handed) + got
      ensures got == d.world.resource[old(offset)..offset]
      // and what it hands over counts as delivered
      ensures old(d.shared.delivered) + |got| <= d.shared.delivered
      // a call makes progress or ends
      ensures plen > 0 ==> got != [] || end != More
      // the end of file is the end of the resource wherever a length was stated, unless the
      // first reply to state one misled the reader
      ensures end.EndOfFile? && total > 0 ==> |handed| >= total
      ensures end.EndOfFile? && LengthTold() ==> handed == d.world.resource || WasMisled()
      ensures total > 0 <==> LengthTold()
      ensures total > 0 ==> (total == |d.world.resource| <==> !WasMisled())
      ensures old(replies) <= replies
      ensures end.EndOfFile? <==> eof
      // a failure has a reason, and sticks
      ensures end.Failed? ==> Explained(end.err)
      ensures old(err).Some? ==> got == [] && end == Failed(old(err).value) && err == old(err)
      ensures end.Failed? ==> err == Some(end.err)
      ensures total == old(total) || old(total) <= 0
    {
      hide AllCameBack, GaveUp;
      assert d.world.resource[offset..offset] == [];
      if err.Some? {
        return [], Failed(err.value);
      }
      if eof {
        return [], EndOfFile;
      }
      while true
        invariant Valid() && err.None? && !eof
        invariant offset == old(offset) && handed == old(handed) && old(replies) <= replies
        invariant total == old(total) || old(total) <= 0
        invariant old(d.shared.delivered) <= d.shared.delivered
        decreases StallsLeft()
      {
        var more;
        got, more, end := Turn(plen);
        if !more {
          return;
        }
      }
    }

    /** io.Copy over the reader: it always ends, with an error or at the end of file. */
    method Drain(plen: nat) returns (copied: seq<byte>, e: Option<Error>)
      requires Valid() && offset == 0 && handed == [] && plen > 0
      modifies this, d`clock, d.shared
      ensures Valid()
      ensures copied == handed && copied <= d.world.resource
      ensures old(d.shared.delivered) + |copied| <= d.shared.delivered
      ensures e.None? ==> eof && (!LengthTold() || WasMisled() || copied == d.world.resource)
      ensures total > 0 <==> LengthTold()
      ensures total > 0 ==> (total == |d.world.resource| <==> !WasMisled())
      ensures old(replies) <= replies
      ensures e.None? && old(total) == |d.world.resource| > 0 ==> copied == d.world.resource
      // at most maxChunkRetries + 2 successful opens start at any one offset
      ensures forall o :: o in opens ==> opens[o] <= d.maxChunkRetries + 2
      ensures e.Some? ==> err == e && Explained(e.value)
      ensures total == old(total) || old(total) <= 0
    {
      copied := [];
      while true
        invariant Valid() && copied == handed && old(replies) <= replies
        invariant old(d.shared.delivered) + |copied| <= d.shared.delivered
        invariant total == old(total) || old(total) <= 0
        decreases |d.world.resource| - offset
      {
        var got, end := Read(plen);
        copied := copied + got;
        match end {
          case More =>
          case EndOfFile => return copied, None;
          case Failed(x) => return copied, Some(x);
        }
      }
    }
  }
}
