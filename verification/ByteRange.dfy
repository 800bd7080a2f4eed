/** download/rangestrategy.go: how byte ranges are asked for and how a reply is checked.

    Header text is a string of characters; the white space that trimming removes is
    the ASCII set. A contentLength of -1 is net/http's "not stated". */
module ByteRange {
  import opened Common
  import opened Text

  // ---------- decimal text ----------

  const INT64_LIMIT := 0x8000_0000_0000_0000

  function Digit(d: nat): char
    requires d < 10
  {
    (d + '0' as int) as char
  }

  predicate IsDigit(c: char) {
    '0' <= c <= '9'
  }

  predicate AllDigits(s: string) {
    forall i :: 0 <= i < |s| ==> IsDigit(s[i])
  }

  function Decimal(n: nat): string {
    if n < 10 then [Digit(n)] else Decimal(n / 10) + [Digit(n % 10)]
  }

  function DigitsValue(s: string): nat
    requires AllDigits(s)
  {
    if s == "" then 0 else DigitsValue(s[..|s| - 1]) * 10 + (s[|s| - 1] as int - '0' as int)
  }

  lemma {:induction false} DecimalReadsBack(n: nat)
    ensures Decimal(n) != "" && AllDigits(Decimal(n)) && DigitsValue(Decimal(n)) == n
  {
    if n < 10 {
      assert DigitsValue([]) == 0;
      assert [Digit(n)][..0] == [];
    } else {
      DecimalReadsBack(n / 10);
      var s := Decimal(n / 10) + [Digit(n % 10)];
      assert s[..|s| - 1] == Decimal(n / 10);
    }
  }

  /** strconv.ParseInt(s, 10, 64). */
  function ParseInt64(s: string): Option<int> {
    if s == "" then None
    else
      var digits := if s[0] == '-' || s[0] == '+' then s[1..] else s;
      if digits == "" || !AllDigits(digits) then None
      else
        var v := DigitsValue(digits);
        if s[0] == '-' then (if v > INT64_LIMIT then None else Some(-(v as int)))
        else if v >= INT64_LIMIT then None else Some(v)
  }

  lemma {:induction false} ParseDecimal(n: nat)
    requires n < INT64_LIMIT
    ensures ParseInt64(Decimal(n)) == Some(n)
  {
    DecimalReadsBack(n);
    assert IsDigit(Decimal(n)[0]);
  }

  // ---------- separators ----------

  function IndexOf(s: string, c: char): (r: Option<nat>)
    ensures r.Some? ==> r.value < |s| && s[r.value] == c && c !in s[..r.value]
    ensures r.None? ==> c !in s
  {
    if s == "" then None
    else if s[0] == c then Some(0)
    else
      match IndexOf(s[1..], c)
      case None => assert s == [s[0]] + s[1..]; None
      case Some(k) => assert s[..k + 1] == [s[0]] + s[1..][..k]; Some(k + 1)
  }

  function LastIndexOf(s: string, c: char): (r: Option<nat>)
    ensures r.Some? ==> r.value < |s| && s[r.value] == c && c !in s[r.value + 1..]
    ensures r.None? ==> c !in s
  {
    if s == "" then None
    else if s[|s| - 1] == c then Some(|s| - 1)
    else
      var t := s[..|s| - 1];
      assert s == t + [s[|s| - 1]];
      match LastIndexOf(t, c)
      case None => None
      case Some(k) => assert s[k + 1..] == t[k + 1..] + [s[|s| - 1]]; Some(k)
  }

  // ---------- Content-Range ----------

  datatype ContentRange = ContentRange(first: int, last: int, total: int)

  /** The span "first-last" of a Content-Range. */
  function ParseSpan(text: string): (r: Option<(int, int)>)
    ensures r.Some? ==> 0 <= r.value.0 <= r.value.1
  {
    var dash := IndexOf(text, '-');
    if dash.None? then None
    else
      var s := ParseInt64(TrimSpace(text[..dash.value]));
      var e := ParseInt64(TrimSpace(text[dash.value + 1..]));
      if s.None? || e.None? || s.value < 0 || e.value < s.value then None else Some((s.value, e.value))
  }

  /** The complete length; "*" reads as 0, which stands for unknown. */
  function ParseTotal(text: string): (r: Option<int>)
    ensures r.Some? ==> 0 <= r.value
  {
    if text == "*" then Some(0)
    else
      var t := ParseInt64(text);
      if t.None? || t.value < 0 then None else t
  }

  /** The header without surrounding white space and its "bytes " unit. */
  function StripUnit(header: string): string {
    var trimmed := TrimSpace(header);
    if "bytes " <= trimmed then trimmed[6..] else trimmed
  }

  /** What follows the unit: "first-last/total". */
  function ParseRangeAndTotal(text: string): (r: Option<ContentRange>)
    ensures r.Some? ==> 0 <= r.value.first <= r.value.last && 0 <= r.value.total
  {
    var slash := LastIndexOf(text, '/');
    if slash.None? then None
    else
      var total := ParseTotal(TrimSpace(text[slash.value + 1..]));
      var span := ParseSpan(TrimSpace(text[..slash.value]));
      if total.None? || span.None? then None
      else Some(ContentRange(span.value.0, span.value.1, total.value))
  }

  function ParseContentRange(header: string): (r: Option<ContentRange>)
    ensures r.Some? ==> 0 <= r.value.first <= r.value.last && 0 <= r.value.total
  {
    ParseRangeAndTotal(StripUnit(header))
  }

  function SpanText(first: nat, last: nat): string {
    Decimal(first) + "-" + Decimal(last)
  }

  function TotalText(complete: Option<nat>): string {
    if complete.None? then "*" else Decimal(complete.value)
  }

  /** The text section 14.4 of RFC 9110 prescribes for a satisfied range. */
  function ContentRangeText(first: nat, last: nat, complete: Option<nat>): string {
    "bytes " + (SpanText(first, last) + "/" + TotalText(complete))
  }

  lemma {:induction false} DecimalIsTrim(n: nat)
    ensures var d := Decimal(n);
            d != "" && TrimSpace(d) == d && IsDigit(d[0]) && IsDigit(d[|d| - 1]) && '-' !in d && '/' !in d
  {
    DecimalReadsBack(n);
    var d := Decimal(n);
    assert IsDigit(d[0]) && IsDigit(d[|d| - 1]);
    TrimSpaceKeeps(d);
  }

  lemma {:induction false} FirstSeparator(a: string, c: char, b: string)
    requires c !in a
    ensures IndexOf(a + [c] + b, c) == Some(|a|)
    ensures (a + [c] + b)[..|a|] == a && (a + [c] + b)[|a| + 1..] == b
  {
    var s := a + [c] + b;
    assert s[|a|] == c;
    assert forall k :: 0 <= k < |a| ==> s[k] == a[k];
    assert forall k :: |a| < k <= |s| ==> s[..k][|a|] == c;
  }

  lemma {:induction false} LastSeparator(a: string, c: char, b: string)
    requires c !in b
    ensures LastIndexOf(a + [c] + b, c) == Some(|a|)
    ensures (a + [c] + b)[..|a|] == a && (a + [c] + b)[|a| + 1..] == b
  {
    var s := a + [c] + b;
    if b != "" {
      LastSeparator(a, c, b[..|b| - 1]);
      assert s[..|s| - 1] == a + [c] + b[..|b| - 1];
      assert s[|s| - 1] == b[|b| - 1];
    }
  }

  lemma {:induction false} SpanReadsBack(first: nat, last: nat)
    requires first <= last < INT64_LIMIT
    ensures ParseSpan(SpanText(first, last)) == Some((first, last))
    ensures TrimSpace(SpanText(first, last)) == SpanText(first, last)
  {
    DecimalIsTrim(first);
    DecimalIsTrim(last);
    ParseDecimal(first);
    ParseDecimal(last);
    FirstSeparator(Decimal(first), '-', Decimal(last));
    var s := SpanText(first, last);
    assert s[0] == Decimal(first)[0] && s[|s| - 1] == Decimal(last)[|Decimal(last)| - 1];
    TrimSpaceKeeps(s);
  }

  lemma {:induction false} TotalReadsBack(complete: Option<nat>)
    requires complete.Some? ==> complete.value < INT64_LIMIT
    ensures ParseTotal(TotalText(complete)) == Some(if complete.None? then 0 else complete.value)
    ensures var t := TotalText(complete); t != "" && TrimSpace(t) == t && '/' !in t && !IsSpace(t[|t| - 1])
  {
    if complete.Some? {
      DecimalIsTrim(complete.value);
      ParseDecimal(complete.value);
      assert Decimal(complete.value) != "*" by { assert IsDigit(Decimal(complete.value)[0]); }
    } else {
      TrimSpaceKeeps("*");
    }
  }

  lemma {:induction false} RangeAndTotalReadBack(first: nat, last: nat, complete: Option<nat>)
    requires first <= last < INT64_LIMIT
    requires complete.Some? ==> complete.value < INT64_LIMIT
    ensures ParseRangeAndTotal(SpanText(first, last) + "/" + TotalText(complete))
         == Some(ContentRange(first, last, if complete.None? then 0 else complete.value))
  {
    SpanReadsBack(first, last);
    TotalReadsBack(complete);
    LastSeparator(SpanText(first, last), '/', TotalText(complete));
  }

  lemma {:induction false} UnitIsStripped(rest: string)
    requires rest != "" && !IsSpace(rest[|rest| - 1])
    ensures StripUnit("bytes " + rest) == rest
  {
  }

  /** Reading back any Content-Range a server may state gives the span it stated. */
  lemma {:induction false} ContentRangeReadsBack(first: nat, last: nat, complete: Option<nat>)
    requires first <= last < INT64_LIMIT
    requires complete.Some? ==> complete.value < INT64_LIMIT
    ensures ParseContentRange(ContentRangeText(first, last, complete))
         == Some(ContentRange(first, last, if complete.None? then 0 else complete.value))
  {
    RangeAndTotalReadBack(first, last, complete);
    TotalReadsBack(complete);
    UnitIsStripped(SpanText(first, last) + "/" + TotalText(complete));
  }

  // ---------- strategies ----------

  datatype Strategy = HeaderRange | QueryRange

  /** The parts of a reply the checks read, and the body the reply was labelled for.
      The span is what ParseContentRange makes of the Content-Range header. */
  datatype Response = Response(status: int, span: Option<ContentRange>, contentLength: int, body: seq<byte>)

  function ReadReply(status: int, contentRange: string, contentLength: int, body: seq<byte>): Response {
    Response(status, ParseContentRange(contentRange), contentLength, body)
  }

  datatype Verdict = Accepted | RangeIgnored | BadStatus(code: int)

  /** An end below zero asks for everything from start on. */
  function Validate(strategy: Strategy, resp: Response, start: int, end: int): Verdict {
    match strategy
    case HeaderRange =>
      if resp.status == 206 then CheckRangedLength(resp, start, end)
      else if resp.status == 200 then (if start == 0 && end < 0 then Accepted else RangeIgnored)
      else BadStatus(resp.status)
    case QueryRange =>
      if resp.status != 200 then BadStatus(resp.status)
      else if end >= 0 && resp.span.None? && resp.contentLength < 0 then RangeIgnored
      else CheckRangedLength(resp, start, end)
  }

  function CheckRangedLength(resp: Response, start: int, end: int): Verdict {
    var cr := resp.span;
    if cr.Some? && cr.value.first != start then RangeIgnored
    else if cr.Some? && end >= 0 && cr.value.last != end then RangeIgnored
    else if end < 0 then Accepted
    else if resp.contentLength >= 0 && resp.contentLength != end - start + 1 then RangeIgnored
    else Accepted
  }

  /** A request the downloader makes of a resource of the given length. */
  predicate InRange(length: nat, start: int, end: int) {
    0 <= start <= length && (end >= 0 ==> start <= end < length)
  }

  /** The bytes a request names. */
  function Requested(resource: seq<byte>, start: int, end: int): seq<byte>
    requires InRange(|resource|, start, end)
  {
    if end < 0 then resource[start..] else resource[start..end + 1]
  }

  predicate TruthfulLength(resp: Response) {
    resp.contentLength == -1 || resp.contentLength == |resp.body|
  }

  /** A Content-Range that parses names the bytes of the body, and the length of the
      resource if it names one. */
  predicate TruthfulSpan(resource: seq<byte>, resp: Response) {
    var cr := resp.span;
    cr.Some? ==>
      && 0 <= cr.value.first <= cr.value.last < |resource|
      && resp.body == resource[cr.value.first..cr.value.last + 1]
      && (cr.value.total == 0 || cr.value.total == |resource|)
  }

  /** What an origin may answer. It may ignore the range, but it labels what it sends
      truthfully: a 206 states its span (section 15.3.7 of RFC 9110), and a 200 carries
      the requested bytes or the whole resource. The one case the checks cannot see is
      an open-ended query-parameter request, whose 200 is taken to honour its start. */
  predicate HonestReply(resource: seq<byte>, strategy: Strategy, start: int, end: int, resp: Response)
    requires InRange(|resource|, start, end)
  {
    && TruthfulLength(resp)
    && TruthfulSpan(resource, resp)
    && (resp.status == 206 ==> resp.span.Some?)
    && (resp.status == 200 ==>
          if end >= 0 then resp.body == resource || resp.body == Requested(resource, start, end)
          else if strategy == HeaderRange then resp.body == resource
          else resp.body <= resource[start..])
  }

  /** Passing Validate means the body is exactly the slice a bounded request named. */
  lemma {:induction false} AcceptedSliceIsExact(resource: seq<byte>, strategy: Strategy, start: int, end: int, resp: Response)
    requires 0 <= start <= end < |resource|
    requires HonestReply(resource, strategy, start, end, resp)
    requires Validate(strategy, resp, start, end) == Accepted
    ensures resp.body == resource[start..end + 1]
  {
  }

  /** Passing Validate on an open-ended request means the body starts at the offset asked for. */
  lemma {:induction false} AcceptedTailStartsAtOffset(resource: seq<byte>, strategy: Strategy, start: int, resp: Response)
    requires 0 <= start <= |resource|
    requires HonestReply(resource, strategy, start, -1, resp)
    requires Validate(strategy, resp, start, -1) == Accepted
    ensures resp.body <= resource[start..]
  {
  }

  /** An origin that sends the slice and says so is never turned away, under either dialect. */
  lemma {:induction false} HonouredRequestIsAccepted(resource: seq<byte>, strategy: Strategy, start: int, end: int, resp: Response)
    requires 0 <= start <= end < |resource|
    requires resp.body == resource[start..end + 1] && TruthfulLength(resp)
    requires resp.span.Some? ==> resp.span.value.total in {0, |resource|}
    requires resp.status == (if strategy == HeaderRange then 206 else 200)
    requires
      || (resp.span.Some? && resp.span.value.first == start && resp.span.value.last == end)
      || (strategy == QueryRange && resp.span.None? && resp.contentLength >= 0)
    ensures HonestReply(resource, strategy, start, end, resp)
    ensures Validate(strategy, resp, start, end) == Accepted
  {
  }

  /** Nor is one that sends the rest, or a front of it, from where it was asked to. */
  lemma {:induction false} HonouredResumeIsAccepted(resource: seq<byte>, strategy: Strategy, start: int, resp: Response)
    requires 0 <= start <= |resource|
    requires resp.body <= resource[start..] && TruthfulLength(resp)
    requires resp.span.Some? ==>
               && resp.span.value.first == start && resp.span.value.total in {0, |resource|}
               && 0 < |resp.body| && resp.span.value.last == start + |resp.body| - 1
    requires
      || (strategy == HeaderRange && resp.status == 206 && resp.span.Some?)
      || (strategy == HeaderRange && resp.status == 200 && start == 0 && resp.body == resource)
      || (strategy == QueryRange && resp.status == 200)
    ensures HonestReply(resource, strategy, start, -1, resp)
    ensures Validate(strategy, resp, start, -1) == Accepted
  {
  }

  /** A bounded 200 that is the whole of a longer resource is always seen for what it is. */
  lemma {:induction false} IgnoredRangeIsCaught(resource: seq<byte>, strategy: Strategy, start: int, end: int, resp: Response)
    requires 0 <= start <= end < |resource| && end - start + 1 < |resource|
    requires HonestReply(resource, strategy, start, end, resp)
    requires resp.status == 200 && resp.body == resource
    ensures Validate(strategy, resp, start, end) == RangeIgnored
  {
  }

  /** Why a 206 has to state its span: without one, a stretch of the right length from any
      other offset is accepted, truthfully labelled as it is. */
  lemma {:induction false} UnstatedSpanIsNotChecked(resource: seq<byte>, start: nat, end: nat, other: nat)
    requires start <= end < |resource| && other + (end - start + 1) <= |resource|
    ensures var resp := Response(206, None, end - start + 1, resource[other..other + (end - start + 1)]);
            TruthfulLength(resp) && TruthfulSpan(resource, resp) && Validate(HeaderRange, resp, start, end) == Accepted
  {
  }

  /** From the header's text to the verdict: a 206 that states its span is accepted exactly
      when the span is the one asked for and the length, if stated, fits it. */
  lemma {:induction false} StatedSpanDecides(first: nat, last: nat, complete: Option<nat>, contentLength: int, body: seq<byte>, start: nat, end: nat)
    requires first <= last < INT64_LIMIT && start <= end
    requires complete.Some? ==> complete.value < INT64_LIMIT
    ensures Validate(HeaderRange, ReadReply(206, ContentRangeText(first, last, complete), contentLength, body), start, end) == Accepted
       <==> first == start && last == end && (contentLength < 0 || contentLength == end - start + 1)
  {
    ContentRangeReadsBack(first, last, complete);
  }
}
