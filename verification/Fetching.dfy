/** One request of a Source: download/download.go's fetch, over an arbitrary exchange
    with the origin. */
module Fetching {
  import opened Common
  import opened ByteRange

  /** A signed URL with its metadata; contentLength is 0 when unknown. */
  datatype Source = Source(url: nat, contentLength: int, strategy: Strategy)

  datatype Error =
    | Refused(gone: bool)                          // a 403, or a 410 when gone
    | NoRefreshCallback
    | NoProgress(delivered: nat, sessions: nat)    // fresh sessions are not moving the stream
    | BudgetSpent                                  // the refresh budget is used up
    | RefreshFailed                                // the callback itself failed
    | RateLimited
    | Ignored                                      // the origin did not honour the range
    | HttpStatus(code: int)
    | Transport
    | Canceled
    | WriteFailed                                  // the local sink failed
    | Incomplete                                   // persistently short delivery
    | Unsupported                                  // the source cannot be read in ranges
    | OverBudget                                   // a bounded read reached its byte budget

  /** How the bytes that reached the client came to an end. */
  datatype Ending = Eof | Broke

  datatype Body = Body(data: seq<byte>, ending: Ending)

  /** What the HTTP client may fail with: a 403 or a 410 always reaches the download layer. */
  type NetworkError = e: Error |
    e.RateLimited? || e.Transport? || e.Canceled? || (e.HttpStatus? && e.code != 403 && e.code != 410)
    witness Transport

  /** What the network did with one request: no usable reply, or a reply of whose body
      the first arrived bytes got through before the connection ended. */
  datatype Exchange =
    | NoReply(err: NetworkError)
    | Reply(resp: Response, arrived: nat, ending: Ending)

  datatype Fetched =
    | Failure(err: Error)
    | Opened(resp: Response, body: Body)

  function Fetch(strategy: Strategy, x: Exchange, start: int, end: int): Fetched {
    match x
    case NoReply(err) => Failure(err)
    case Reply(resp, arrived, ending) =>
      if resp.status == 403 || resp.status == 410 then Failure(Refused(resp.status == 410))
      else
        match Validate(strategy, resp, start, end)
        case RangeIgnored => Failure(Ignored)
        case BadStatus(code) => Failure(HttpStatus(code))
        case Accepted => Opened(resp, Body(resp.body[..Min(arrived, |resp.body|)], ending))
  }

  /** The exchanges a truthful origin and a real network can produce. */
  predicate Honest(resource: seq<byte>, strategy: Strategy, start: int, end: int, x: Exchange)
    requires InRange(|resource|, start, end)
  {
    x.Reply? ==> HonestReply(resource, strategy, start, end, x.resp)
  }

  /** The origin turned the URL down: a 403, or a 410 when it is gone for good. */
  predicate TurnedDown(x: Exchange) {
    x.Reply? && x.resp.status in {403, 410}
  }

  predicate Gone(x: Exchange) {
    x.Reply? && x.resp.status == 410
  }

  /** A request is refused exactly when its URL was turned down, and the refusal tells a 410
      from a 403. Neither is ever an ordinary status; any other than 200 and 206 is. */
  lemma {:induction false} RefusedIffTurnedDown(strategy: Strategy, x: Exchange, start: int, end: int)
    ensures var r := Fetch(strategy, x, start, end);
            && (TurnedDown(x) <==> r.Failure? && r.err.Refused?)
            && (TurnedDown(x) ==> r.err.gone == Gone(x))
            && (r.Failure? && r.err.HttpStatus? ==> r.err.code !in {403, 410})
            && (x.Reply? && x.resp.status !in {200, 206, 403, 410} ==> r == Failure(HttpStatus(x.resp.status)))
            && (r.Failure? && r.err.Canceled? ==> x == NoReply(Canceled))
  {
  }

  /** An opened body never carries anything but the front of the bytes asked for. */
  lemma {:induction false} OpenedBodyIsRequested(resource: seq<byte>, strategy: Strategy, start: int, end: int, x: Exchange)
    requires InRange(|resource|, start, end)
    requires Honest(resource, strategy, start, end, x)
    requires Fetch(strategy, x, start, end).Opened?
    ensures Fetch(strategy, x, start, end).body.data <= Requested(resource, start, end)
    ensures x.resp.body <= Requested(resource, start, end)
  {
  }

  /** A clean, full-length reply that honours the range is delivered whole. */
  lemma {:induction false} FullReplyDeliversEverything(resource: seq<byte>, strategy: Strategy, start: int, end: int, x: Exchange)
    requires 0 <= start <= end < |resource|
    requires x.Reply? && Honest(resource, strategy, start, end, x)
    requires Validate(strategy, x.resp, start, end) == Accepted && x.arrived >= |x.resp.body|
    ensures Fetch(strategy, x, start, end).Opened?
    ensures Fetch(strategy, x, start, end).body.data == resource[start..end + 1]
  {
  }
}
