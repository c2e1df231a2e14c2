/** `OpenAIWhisperService`: one multipart upload to the OpenAI transcription
    endpoint, answering with the `text` field of the JSON reply. */
module OpenAIWhisper {
  import opened Wrappers
  import opened Http
  import opened CloudClient
  import Multipart
  import NetworkHelper

  const Endpoint := "https://api.openai.com/v1/audio/transcriptions"
  const Model := "whisper-1"

  /** `OpenAIWhisperResponse`, the reply OpenRouter is decoded into as well. */
  datatype WhisperResponse = WhisperResponse(text: string)

  /** `OpenAIError.errorDescription`; the errors of other components have
      their own descriptions, which the model does not know. Each client
      declares its own error enum, so each client module has its own
      description function over the shared `ClientError`. */
  function ErrorDescription(e: ClientError): (r: Option<string>)
    ensures r.Some? <==> e.MissingApiKey? || e.InvalidResponse? || e.Server?
    ensures e.Server? ==> r == Some(e.message)
  {
    match e
    case MissingApiKey => Some("OpenAI API key is missing")
    case InvalidResponse => Some("Invalid response from OpenAI")
    case Server(message) => Some(message)
    case _ => None
  }

  function Headers(key: string, boundary: string): map<string, string> {
    map["Content-Type" := "multipart/form-data; boundary=" + boundary,
        "Authorization" := BearerAuthorization(key)]
  }

  function TranscriptionRequest(key: string, boundary: string, body: Bytes): Request {
    Request(Endpoint, "POST", Headers(key, boundary), body)
  }

  /** `transcribe(apiKey:audioURL:)`. `uuid` stands for `UUID().uuidString`
      and `decode` for `JSONDecoder().decode(OpenAIWhisperResponse.self, ...)`. */
  function Transcribe(p: Platform, decode: Bytes -> Result<WhisperResponse, DecodeError>,
                      apiKey: Option<string>, audioUrl: AudioUrl, uuid: string): (r: Result<string, ClientError>)
    ensures r == Failure(MissingApiKey) <==> !HasKey(apiKey)
    ensures r.Success? ==>
      HasKey(apiKey) && p.readFile(audioUrl).Success?
      && var body := Multipart.Body(p.utf8Encode, Multipart.Boundary(uuid), Model, audioUrl.lastPathComponent, p.readFile(audioUrl).value);
      var reply := Send(p, TranscriptionRequest(apiKey.value, Multipart.Boundary(uuid), body));
      reply.Success? && decode(reply.value) == Success(WhisperResponse(r.value))
  {
    if !HasKey(apiKey) then Failure(MissingApiKey)
    else
      var boundary := Multipart.Boundary(uuid);
      match p.readFile(audioUrl)
      case Failure(e) => Failure(FileRead(e))
      case Success(fileData) =>
        var body := Multipart.Body(p.utf8Encode, boundary, Model, audioUrl.lastPathComponent, fileData);
        match Send(p, TranscriptionRequest(apiKey.value, boundary, body))
        case Failure(e) => Failure(e)
        case Success(data) =>
          match decode(data)
          case Failure(e) => Failure(Decoding(e))
          case Success(decoded) => Success(decoded.text)
  }

  /** The request carries exactly two headers: the Bearer credential and the
      multipart content type naming the boundary. */
  lemma RequestHeaders(key: string, uuid: string, body: Bytes)
    ensures var h := TranscriptionRequest(key, Multipart.Boundary(uuid), body).headers;
      h.Keys == {"Content-Type", "Authorization"}
      && h["Authorization"] == "Bearer " + key
      && h["Content-Type"] == "multipart/form-data; boundary=Boundary-" + uuid
  {
  }

  /** Once the retrying transport hands back a reply, a non-HTTP response is
      `invalidResponse`, a status outside 2xx is `server` with the body text,
      and a 2xx reply yields the decoded `text` or the decoder's own error. */
  lemma ReplyHandling(p: Platform, decode: Bytes -> Result<WhisperResponse, DecodeError>,
                      key: string, audioUrl: AudioUrl, uuid: string, fileData: Bytes, data: Bytes, response: Response)
    requires key != "" && p.readFile(audioUrl) == Success(fileData)
    requires NetworkHelper.RetryResult(Attempts(p, TranscriptionRequest(key, Multipart.Boundary(uuid),
               Multipart.Body(p.utf8Encode, Multipart.Boundary(uuid), Model, audioUrl.lastPathComponent, fileData))),
               NetworkHelper.DefaultRetries)
             == Success((data, response))
    ensures var r := Transcribe(p, decode, Some(key), audioUrl, uuid);
      && (response.NonHttpResponse? ==> r == Failure(InvalidResponse))
      && (response.HttpResponse? && !IsSuccessStatus(response.statusCode) ==>
            r == Failure(Server(ServerMessage(p.utf8Decode, data))))
      && (response.HttpResponse? && IsSuccessStatus(response.statusCode) ==>
            r == match decode(data) case Success(w) => Success(w.text) case Failure(e) => Failure(Decoding(e)))
  {
  }
}
