/**
 * One request to the completions endpoint, seen from its answer: the status
 * dispatch of `_send_message_to_ai` and, for status 200, the reassembly loop.
 * The HTTP client is not modelled; its answer is an input.
 */
module Completion {
  import opened Wrappers
  import opened EventStream

  /** How `requests.post` came back. `TransportFailure` stands for every exception
      the source catches around the request (timeout, connection error, DNS
      failure, other request errors); each one ends in `None`. */
  datatype Response = TransportFailure | Http(status: int, lines: seq<Line>)

  /** The branches of the status dispatch; all but `Streamed` only print a
      diagnostic and return `None`. */
  datatype StatusClass = Streamed | Unauthorized | BadRequest | RateLimited | ServerFault | Unexpected

  function ClassifyStatus(status: int): StatusClass {
    if status == 200 then Streamed
    else if status == 401 then Unauthorized
    else if status == 400 then BadRequest
    else if status == 429 then RateLimited
    else if status in {500, 502, 503, 504} then ServerFault
    else Unexpected
  }

  /** What `_send_message_to_ai` returns and echoes for a response. */
  function Exchange(response: Response, parse: string -> Payload): Outcome {
    match response
    case TransportFailure => Outcome(None, "")
    case Http(status, lines) =>
      if ClassifyStatus(status) == Streamed then Fold(Decode(lines, parse), "")
      else Outcome(None, "")
  }

  /** A reply the caller treats as success: Python truthiness of the returned value. */
  predicate Truthy(reply: Option<string>) {
    reply.Some? && reply.value != ""
  }

  /** Only status 200 reads the body as an event stream; every other status, and every transport
      failure, yields `None` and echoes nothing. */
  lemma OnlyOkIsRead(response: Response, parse: string -> Payload)
    ensures response.Http? ==> (ClassifyStatus(response.status) == Streamed <==> response.status == 200)
    ensures (response.TransportFailure? || response.status != 200) ==> Exchange(response, parse) == Outcome(None, "")
  {
  }

  /** The diagnostic categories of the non-200 statuses. */
  lemma StatusCategories(status: int)
    ensures ClassifyStatus(status) == Unauthorized <==> status == 401
    ensures ClassifyStatus(status) == BadRequest <==> status == 400
    ensures ClassifyStatus(status) == RateLimited <==> status == 429
    ensures ClassifyStatus(status) == ServerFault <==> status == 500 || status == 502 || status == 503 || status == 504
  {
  }

  /** For status 200, the reply is the in-order concatenation of the fragments
      before the first `[DONE]` (or the end of the body), unless an error line
      comes first, and the echoed text is that concatenation either way. */
  lemma OkReplyIsConcatenation(lines: seq<Line>, parse: string -> Payload)
    ensures var steps := Decode(lines, parse);
            var text := Fragments(steps[..Terminal(steps)]);
            Exchange(Http(200, lines), parse) == Outcome(if Aborted(steps) then None else Some(text), text)
  {
    var steps := Decode(lines, parse);
    FoldMeaning(steps, "");
    assert "" + Fragments(steps[..Terminal(steps)]) == Fragments(steps[..Terminal(steps)]);
  }
}
