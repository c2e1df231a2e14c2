/** `GeminiTranscriptionService`: a `generateContent` call with the audio
    inlined as base64 (section 4 of RFC 4648) in a JSON payload, whose reply
    is reduced to text by joining the text parts of the first candidate. */
module Gemini {
  import opened Wrappers
  import opened Http
  import opened CloudClient
  import NetworkHelper

  const Endpoint := "https://generativelanguage.googleapis.com/v1beta/models/gemini-1.5-flash:generateContent"
  const Prompt := "Transcribe the following audio to plain text."

  /** The JSON values the payload is built from. Objects are Swift
      dictionaries, so their members are unordered. */
  datatype Json = JString(s: string) | JArray(items: seq<Json>) | JObject(members: map<string, Json>)

  /** `GeminiResponse` and its nested types. */
  datatype Part = Part(text: Option<string>)
  datatype Content = Content(parts: seq<Part>)
  datatype Candidate = Candidate(content: Content)
  datatype GeminiResponse = GeminiResponse(candidates: Option<seq<Candidate>>)

  /** `GeminiError.errorDescription`: the client's own enum, hence its own
      function, with the OpenAI one's shape and its own texts. */
  function ErrorDescription(e: ClientError): (r: Option<string>)
    ensures r.Some? <==> e.MissingApiKey? || e.InvalidResponse? || e.Server?
    ensures e.Server? ==> r == Some(e.message)
  {
    match e
    case MissingApiKey => Some("Gemini API key is missing")
    case InvalidResponse => Some("Invalid response from Gemini")
    case Server(message) => Some(message)
    case _ => None
  }

  /** The API key travels in the query string. */
  function Url(key: string): string {
    Endpoint + "?key=" + key
  }

  /** `{contents: [{parts: [{text: prompt}, {inline_data: {mime_type, data}}]}]}`. */
  function Payload(audioBase64: string): Json {
    JObject(map["contents" := JArray([
      JObject(map["parts" := JArray([
        JObject(map["text" := JString(Prompt)]),
        JObject(map["inline_data" := JObject(map[
          "mime_type" := JString("audio/m4a"),
          "data" := JString(audioBase64)])])])])])])
  }

  function TranscriptionRequest(key: string, body: Bytes): Request {
    Request(Url(key), "POST", map["Content-Type" := "application/json"], body)
  }

  /** `parts.compactMap { $0.text }`: the texts that are present, in order. */
  function PartTexts(parts: seq<Part>): (texts: seq<string>)
    ensures |texts| <= |parts|
    ensures forall t :: t in texts ==> Part(Some(t)) in parts
  {
    if parts == [] then []
    else (if parts[0].text.Some? then [parts[0].text.value] else []) + PartTexts(parts[1..])
  }

  /** `joined(separator: " ")`. */
  function Join(texts: seq<string>): string {
    if |texts| == 0 then ""
    else if |texts| == 1 then texts[0]
    else texts[0] + " " + Join(texts[1..])
  }

  /** The text taken from a decoded reply: the joined parts of the first
      candidate, if there is one and the join is not empty. */
  function ExtractText(reply: GeminiResponse): (r: Option<string>)
    ensures r.Some? ==> r.value != ""
    ensures r.Some? <==>
      reply.candidates.Some? && |reply.candidates.value| > 0
      && Join(PartTexts(reply.candidates.value[0].content.parts)) != ""
  {
    match reply.candidates
    case None => None
    case Some(candidates) =>
      if |candidates| == 0 then None
      else
        var text := Join(PartTexts(candidates[0].content.parts));
        if text != "" then Some(text) else None
  }

  /** `transcribe(apiKey:audioURL:)`: `serialize` stands for
      `JSONSerialization.data` and `decode` for `JSONDecoder().decode`. */
  function Transcribe(p: Platform, serialize: Json -> Bytes, decode: Bytes -> Result<GeminiResponse, DecodeError>,
                      apiKey: Option<string>, audioUrl: AudioUrl): (r: Result<string, ClientError>)
    ensures r == Failure(MissingApiKey) <==> !HasKey(apiKey)
    ensures r.Success? ==> r.value != ""
    ensures r.Success? ==>
      HasKey(apiKey) && p.readFile(audioUrl).Success?
      && var body := serialize(Payload(p.base64Encode(p.readFile(audioUrl).value)));
      var reply := Send(p, TranscriptionRequest(apiKey.value, body));
      reply.Success? && decode(reply.value).Success? && ExtractText(decode(reply.value).value) == Some(r.value)
  {
    if !HasKey(apiKey) then Failure(MissingApiKey)
    else
      match p.readFile(audioUrl)
      case Failure(e) => Failure(FileRead(e))
      case Success(audioData) =>
        var body := serialize(Payload(p.base64Encode(audioData)));
        match Send(p, TranscriptionRequest(apiKey.value, body))
        case Failure(e) => Failure(e)
        case Success(data) =>
          match decode(data)
          case Failure(e) => Failure(Decoding(e))
          case Success(reply) =>
            match ExtractText(reply)
            case Some(text) => Success(text)
            case None => Failure(InvalidResponse)
  }

  /** The key is only in the query string: the one header is the JSON
      content type, and two keys give the same URL only if they are the same
      key. (The body is built from the audio alone: `Payload` takes no key.) */
  lemma KeyOnlyInQuery(key: string, other: string, body: Bytes)
    ensures TranscriptionRequest(key, body).url == Endpoint + "?key=" + key
    ensures TranscriptionRequest(key, body).headers == map["Content-Type" := "application/json"]
    ensures TranscriptionRequest(key, body).url == TranscriptionRequest(other, body).url <==> key == other
  {
    var prefix := Endpoint + "?key=";
    if Url(key) == Url(other) {
      assert key == Url(key)[|prefix|..];
      assert other == Url(other)[|prefix|..];
    }
  }

  /** The payload holds one `contents` entry with two parts, in order: the
      prompt, then the audio as `audio/m4a` base64. */
  lemma PayloadShape(audioBase64: string)
    ensures var contents := Payload(audioBase64).members["contents"];
      contents.JArray? && |contents.items| == 1
      && var parts := contents.items[0].members["parts"];
      parts.JArray? && |parts.items| == 2
      && parts.items[0] == JObject(map["text" := JString(Prompt)])
      && parts.items[1].members["inline_data"].members["mime_type"] == JString("audio/m4a")
      && parts.items[1].members["inline_data"].members["data"] == JString(audioBase64)
  {
  }

  /** `compactMap` distributes over concatenation, so texts keep their order. */
  lemma {:induction false} PartTextsAppend(a: seq<Part>, b: seq<Part>)
    ensures PartTexts(a + b) == PartTexts(a) + PartTexts(b)
  {
    if a == [] {
      assert a + b == b;
    } else {
      var head := if a[0].text.Some? then [a[0].text.value] else [];
      assert (a + b)[0] == a[0];
      assert (a + b)[1..] == a[1..] + b;
      assert PartTexts(a + b) == head + PartTexts(a[1..] + b);
      PartTextsAppend(a[1..], b);
      assert PartTexts(a) == head + PartTexts(a[1..]);
    }
  }

  /** A part without text contributes nothing; a part with text contributes
      exactly that text. */
  lemma PartTextsSingle(part: Part)
    ensures PartTexts([part]) == if part.text.Some? then [part.text.value] else []
  {
  }

  /** Joining one more text adds a single space before it. */
  lemma {:induction false} JoinAppend(texts: seq<string>, t: string)
    requires texts != []
    ensures Join(texts + [t]) == Join(texts) + " " + t
  {
    if |texts| == 1 {
      assert texts + [t] == [texts[0], t];
    } else {
      assert (texts + [t])[1..] == texts[1..] + [t];
      JoinAppend(texts[1..], t);
    }
  }

  /** Only the first candidate is consulted. */
  lemma FirstCandidateOnly(first: Candidate, rest: seq<Candidate>)
    ensures ExtractText(GeminiResponse(Some([first] + rest))) == ExtractText(GeminiResponse(Some([first])))
  {
  }

  /** A reply without candidates is an invalid response. */
  lemma NoCandidatesIsInvalid(reply: GeminiResponse)
    requires reply.candidates.None? || reply.candidates == Some([])
    ensures ExtractText(reply) == None
  {
  }

  /** Once the retrying transport hands back a reply: a non-HTTP response is
      `invalidResponse`, a status outside 2xx is `server` with the body text,
      and a 2xx reply is decoded and reduced to text, a reply without text
      being `invalidResponse`. */
  lemma ReplyHandling(p: Platform, serialize: Json -> Bytes, decode: Bytes -> Result<GeminiResponse, DecodeError>,
                      key: string, audioUrl: AudioUrl, audioData: Bytes, data: Bytes, response: Response)
    requires key != "" && p.readFile(audioUrl) == Success(audioData)
    requires NetworkHelper.RetryResult(Attempts(p, TranscriptionRequest(key, serialize(Payload(p.base64Encode(audioData))))),
               NetworkHelper.DefaultRetries)
             == Success((data, response))
    ensures var r := Transcribe(p, serialize, decode, Some(key), audioUrl);
      && (response.NonHttpResponse? ==> r == Failure(InvalidResponse))
      && (response.HttpResponse? && !IsSuccessStatus(response.statusCode) ==>
            r == Failure(Server(ServerMessage(p.utf8Decode, data))))
      && (response.HttpResponse? && IsSuccessStatus(response.statusCode) ==>
            r == match decode(data)
                 case Failure(e) => Failure(Decoding(e))
                 case Success(reply) =>
                   if ExtractText(reply).Some? then Success(ExtractText(reply).value) else Failure(InvalidResponse))
  {
  }
}
