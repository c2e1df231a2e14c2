/** The steps the three cloud clients share: the API-key guard, the Bearer
    credential (section 2.1 of RFC 6750), sending through the retrying
    transport, and the status check that accepts only the 2xx class of
    section 15.3 of RFC 9110. */
module CloudClient {
  import opened Wrappers
  import opened Http
  import NetworkHelper

  /** `guard let apiKey = apiKey, !apiKey.isEmpty`. */
  predicate HasKey(apiKey: Option<string>) {
    apiKey.Some? && apiKey.value != ""
  }

  function BearerAuthorization(key: string): string {
    "Bearer " + key
  }

  /** `(200..<300).contains(statusCode)`. */
  predicate IsSuccessStatus(statusCode: int) {
    200 <= statusCode < 300
  }

  /** `String(data: data, encoding: .utf8) ?? "Unknown error"`. */
  function ServerMessage(utf8Decode: Bytes -> Option<string>, data: Bytes): string {
    match utf8Decode(data)
    case Some(message) => message
    case None => "Unknown error"
  }

  /** The two guards after the transport returns: a non-HTTP response is
      `invalidResponse`, a status outside 2xx is `server` with the body as
      text; otherwise the body is handed on to the decoder unchanged. */
  function CheckResponse(utf8Decode: Bytes -> Option<string>, data: Bytes, response: Response): (r: Result<Bytes, ClientError>)
    ensures r.Success? <==> response.HttpResponse? && IsSuccessStatus(response.statusCode)
    ensures r.Success? ==> r.value == data
    ensures response.NonHttpResponse? ==> r == Failure(InvalidResponse)
    ensures r.Failure? && response.HttpResponse? ==> r == Failure(Server(ServerMessage(utf8Decode, data)))
  {
    match response
    case NonHttpResponse => Failure(InvalidResponse)
    case HttpResponse(code) =>
      if IsSuccessStatus(code) then Success(data) else Failure(Server(ServerMessage(utf8Decode, data)))
  }

  /** The attempts the session makes at one request. */
  function Attempts(p: Platform, request: Request): nat -> TransportOutcome {
    (k: nat) => p.transport(request, k)
  }

  /** `NetworkHelper.dataWithRetry(for: request)` with its default arguments,
      followed by the status check. A transport error that survives the
      retries propagates unchanged. */
  function Send(p: Platform, request: Request): (r: Result<Bytes, ClientError>)
    ensures r.Success? ==>
      var sent := NetworkHelper.RetryResult(Attempts(p, request), NetworkHelper.DefaultRetries);
      sent.Success? && sent.value.0 == r.value
      && sent.value.1.HttpResponse? && IsSuccessStatus(sent.value.1.statusCode)
    ensures (r.Failure? && r.error.Transport?) <==>
      NetworkHelper.RetryResult(Attempts(p, request), NetworkHelper.DefaultRetries).Failure?
    ensures var sent := NetworkHelper.RetryResult(Attempts(p, request), NetworkHelper.DefaultRetries);
      sent.Success? ==> r == CheckResponse(p.utf8Decode, sent.value.0, sent.value.1)
  {
    match NetworkHelper.RetryResult(Attempts(p, request), NetworkHelper.DefaultRetries)
    case Failure(e) => Failure(Transport(e))
    case Success((data, response)) => CheckResponse(p.utf8Decode, data, response)
  }

  /** A reply that arrives after fewer failed attempts than the retry budget
      is the one the status check classifies: earlier failures are skipped,
      and no retry follows a non-2xx reply. */
  lemma ReplyAfterFailures(p: Platform, request: Request, k: nat, data: Bytes, response: Response)
    requires k <= NetworkHelper.DefaultRetries
    requires forall j :: 0 <= j < k ==> p.transport(request, j).Failed?
    requires p.transport(request, k) == Delivered(data, response)
    ensures NetworkHelper.RetryResult(Attempts(p, request), NetworkHelper.DefaultRetries) == Success((data, response))
    ensures Send(p, request) == CheckResponse(p.utf8Decode, data, response)
  {
    NetworkHelper.DeliveredIsReturned(Attempts(p, request), NetworkHelper.DefaultRetries, k);
  }

  /** A transport that fails once and then answers 200 yields the body. */
  lemma RetriedSuccess(p: Platform, request: Request, e: NetError, data: Bytes)
    requires p.transport(request, 0) == Failed(e)
    requires p.transport(request, 1) == Delivered(data, HttpResponse(200))
    ensures Send(p, request) == Success(data)
  {
    ReplyAfterFailures(p, request, 1, data, HttpResponse(200));
  }
}
