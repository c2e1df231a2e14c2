/** `OpenRouterTranscriptionService`: the OpenAI-compatible upload to
    OpenRouter. It differs from the OpenAI client in its endpoint, its model
    value and two identifying headers; the reply is decoded with the OpenAI
    reply type (the `choices`-shaped `OpenRouterResponse` is never used). */
module OpenRouter {
  import opened Wrappers
  import opened Http
  import opened CloudClient
  import Multipart
  import NetworkHelper
  import OpenAIWhisper

  const Endpoint := "https://openrouter.ai/api/v1/audio/transcriptions"
  const Model := "openai/whisper-1"
  const Referer := "FloatMic/1.0"
  const Title := "https://github.com/yourusername/floatmic"

  /** `OpenRouterError.errorDescription`: the client's own enum, hence its
      own function, with the OpenAI one's shape and its own texts. */
  function ErrorDescription(e: ClientError): (r: Option<string>)
    ensures r.Some? <==> e.MissingApiKey? || e.InvalidResponse? || e.Server?
    ensures e.Server? ==> r == Some(e.message)
  {
    match e
    case MissingApiKey => Some("OpenRouter API key is missing")
    case InvalidResponse => Some("Invalid response from OpenRouter")
    case Server(message) => Some(message)
    case _ => None
  }

  function Headers(key: string, boundary: string): map<string, string> {
    map["Content-Type" := "multipart/form-data; boundary=" + boundary,
        "Authorization" := BearerAuthorization(key),
        "HTTP-Referer" := Referer,
        "X-Title" := Title]
  }

  function TranscriptionRequest(key: string, boundary: string, body: Bytes): Request {
    Request(Endpoint, "POST", Headers(key, boundary), body)
  }

  /** `transcribe(apiKey:audioURL:)`. */
  function Transcribe(p: Platform, decode: Bytes -> Result<OpenAIWhisper.WhisperResponse, DecodeError>,
                      apiKey: Option<string>, audioUrl: AudioUrl, uuid: string): (r: Result<string, ClientError>)
    ensures r == Failure(MissingApiKey) <==> !HasKey(apiKey)
    ensures r.Success? ==>
      HasKey(apiKey) && p.readFile(audioUrl).Success?
      && var body := Multipart.Body(p.utf8Encode, Multipart.Boundary(uuid), Model, audioUrl.lastPathComponent, p.readFile(audioUrl).value);
      var reply := Send(p, TranscriptionRequest(apiKey.value, Multipart.Boundary(uuid), body));
      reply.Success? && decode(reply.value) == Success(OpenAIWhisper.WhisperResponse(r.value))
  {
    if !HasKey(apiKey) then Failure(MissingApiKey)
    else
      var boundary := Multipart.Boundary(uuid);
      match p.readFile(audioUrl)
      case Failure(e) => Failure(FileRead(e))
      case Success(fileData) =>
        var body := Multipart.Body(p.utf8Encode, boundary, Model, audioUrl.lastPathComponent, fileData);
        match Send(p, TranscriptionRequest(apiKey.value, boundary, body))
        case Failure(e) => Failure(e)
        case Success(data) =>
          match decode(data)
          case Failure(e) => Failure(Decoding(e))
          case Success(decoded) => Success(decoded.text)
  }

  /** Four headers: the Bearer credential, the multipart content type, and
      the fixed referer and title. */
  lemma RequestHeaders(key: string, uuid: string, body: Bytes)
    ensures var h := TranscriptionRequest(key, Multipart.Boundary(uuid), body).headers;
      h.Keys == {"Content-Type", "Authorization", "HTTP-Referer", "X-Title"}
      && h["Authorization"] == "Bearer " + key
      && h["Content-Type"] == "multipart/form-data; boundary=Boundary-" + uuid
      && h["HTTP-Referer"] == "FloatMic/1.0"
      && h["X-Title"] == "https://github.com/yourusername/floatmic"
  {
  }

  /** The body differs from the OpenAI one only in the model value. */
  lemma SameLayoutAsOpenAI(p: Platform, uuid: string, filename: string, fileData: Bytes)
    ensures Multipart.Body(p.utf8Encode, Multipart.Boundary(uuid), Model, filename, fileData)
         == Multipart.Body(p.utf8Encode, Multipart.Boundary(uuid), OpenAIWhisper.Model, filename, fileData)
       <==> p.utf8Encode(Model + "\r\n") == p.utf8Encode(OpenAIWhisper.Model + "\r\n")
  {
    var b := Multipart.Boundary(uuid);
    var u := p.utf8Encode;
    var head := u(Multipart.Delimiter(b)) + u(Multipart.ModelDisposition);
    var tail := u(Multipart.Delimiter(b)) + u(Multipart.FileDisposition(filename)) + u(Multipart.FileContentType)
      + fileData + Multipart.Epilogue(u, b);
    var x := u(Model + "\r\n");
    var y := u(OpenAIWhisper.Model + "\r\n");
    assert Multipart.Body(u, b, Model, filename, fileData) == head + x + tail;
    assert Multipart.Body(u, b, OpenAIWhisper.Model, filename, fileData) == head + y + tail;
    if head + x + tail == head + y + tail {
      assert |x| == |y|;
      assert x == (head + x + tail)[|head|..|head| + |x|];
      assert y == (head + y + tail)[|head|..|head| + |y|];
    }
  }

  /** Once the retrying transport hands back a reply, the status is handled
      exactly as by the OpenAI client. */
  lemma ReplyHandling(p: Platform, decode: Bytes -> Result<OpenAIWhisper.WhisperResponse, DecodeError>,
                      key: string, audioUrl: AudioUrl, uuid: string, fileData: Bytes, data: Bytes, response: Response)
    requires key != "" && p.readFile(audioUrl) == Success(fileData)
    requires NetworkHelper.RetryResult(Attempts(p, TranscriptionRequest(key, Multipart.Boundary(uuid),
               Multipart.Body(p.utf8Encode, Multipart.Boundary(uuid), Model, audioUrl.lastPathComponent, fileData))),
               NetworkHelper.DefaultRetries)
             == Success((data, response))
    ensures var r := Transcribe(p, decode, Some(key), audioUrl, uuid);
      && (response.NonHttpResponse? ==> r == Failure(InvalidResponse))
      && (response.HttpResponse? && !IsSuccessStatus(response.statusCode) ==>
            r == Failure(Server(ServerMessage(p.utf8Decode, data))))
      && (response.HttpResponse? && IsSuccessStatus(response.statusCode) ==>
            r == match decode(data) case Success(w) => Success(w.text) case Failure(e) => Failure(Decoding(e)))
  {
  }
}
