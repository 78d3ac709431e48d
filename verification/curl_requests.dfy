/**
 The two request helpers. Each builds its option set, hands it to cURL, and
 turns what the transfer reports into the result: a response holding the HTTP
 status code and the body, or a transport error carrying cURL's error number.
 The transfer itself (`curl_exec` and the handle calls around it) is a
 parameter, as is cURL's text for an error number.
 */
module CurlRequests {
  import opened Wrappers
  import opened CurlOptions
  import Headers

  /** What one transfer reports: it failed with an error number, or it
      completed with a body and the HTTP status code of the exchange. */
  datatype Outcome = Failed(errno: int) | Completed(body: string, httpCode: nat)

  /** The response of a completed transfer. An HTTP error status is still a
      response, not an error. */
  datatype Response = Response(statusCode: nat, content: string)

  /** A failed transfer: cURL's error number and a message describing it. */
  datatype TransportError = TransportError(code: int, message: string)

  /** The text every transport error message starts with. */
  const ErrorPrefix: string := "cURL error: "

  /** The result the helpers return for an outcome. `strerror` stands for
      `curl_strerror`. */
  function Conclude(outcome: Outcome, strerror: int -> string): (r: Result<Response, TransportError>)
    ensures r.Failure? <==> outcome.Failed?
    ensures r.Failure? ==> r.error.code == outcome.errno
    ensures r.Failure? ==> r.error.message == ErrorPrefix + strerror(outcome.errno)
    ensures r.Success? ==> r.value.statusCode == outcome.httpCode && r.value.content == outcome.body
  {
    match outcome
    case Failed(errno) => Failure(TransportError(errno, ErrorPrefix + strerror(errno)))
    case Completed(body, httpCode) => Success(Response(httpCode, body))
  }

  /** The outcome a result tells of: a response gives back the body and
      status, an error gives back the error number. */
  function Observed(r: Result<Response, TransportError>): Outcome
  {
    match r
    case Success(resp) => Completed(resp.content, resp.statusCode)
    case Failure(err) => Failed(err.code)
  }

  /** The result loses nothing of the outcome: the outcome can be read back
      from it, so distinct outcomes give distinct results. */
  lemma ConcludeLosesNothing(outcome: Outcome, strerror: int -> string)
    ensures Observed(Conclude(outcome, strerror)) == outcome
  {
  }

  /** A GET: the transfer is run with the GET option set and its outcome
      becomes the result. Headers and options default to none and TLS
      verification to on. */
  function Get(url: string, headers: seq<Headers.Header> := [], options: Options := [], sslVerify: bool := true,
               exec: Options -> Outcome, strerror: int -> string): (r: Result<Response, TransportError>)
    ensures r.Success? <==> exec(GetOptions(url, headers, options, sslVerify)).Completed?
    ensures Observed(r) == exec(GetOptions(url, headers, options, sslVerify))
    ensures r.Failure? ==> r.error.message == ErrorPrefix + strerror(r.error.code)
  {
    var outcome := exec(GetOptions(url, headers, options, sslVerify));
    ConcludeLosesNothing(outcome, strerror);
    Conclude(outcome, strerror)
  }

  /** A POST: the transfer is run with the POST option set and its outcome
      becomes the result. `formEncode` stands for `http_build_query`. The
      optional arguments default as for GET. */
  function Post(url: string, data: PostData, headers: seq<Headers.Header> := [], options: Options := [],
                sslVerify: bool := true, formEncode: seq<(string, string)> -> string,
                exec: Options -> Outcome, strerror: int -> string): (r: Result<Response, TransportError>)
    ensures r.Success? <==> exec(PostOptions(url, data, headers, options, sslVerify, formEncode)).Completed?
    ensures Observed(r) == exec(PostOptions(url, data, headers, options, sslVerify, formEncode))
    ensures r.Failure? ==> r.error.message == ErrorPrefix + strerror(r.error.code)
  {
    var outcome := exec(PostOptions(url, data, headers, options, sslVerify, formEncode));
    ConcludeLosesNothing(outcome, strerror);
    Conclude(outcome, strerror)
  }
}
