/** The `multipart/form-data` body (RFC 7578) that the OpenAI and OpenRouter
    clients build in `createMultipartBody`: a `model` field and a `file`
    field, each opened by a delimiter line and the whole closed by the close
    delimiter of section 5.1.1 of RFC 2046. Both clients contain the same
    code; only the model value differs, so it is a parameter here. */
module Multipart {
  import opened Wrappers
  import opened Http

  const FileMime := "audio/m4a"

  /** "Boundary-" followed by a fresh UUID string. */
  function Boundary(uuid: string): string {
    "Boundary-" + uuid
  }

  /** `--boundary CRLF`, which opens every body part. */
  function Delimiter(boundary: string): string {
    "--" + boundary + "\r\n"
  }

  /** `--boundary-- CRLF`, which ends the body. */
  function CloseDelimiter(boundary: string): string {
    "--" + boundary + "--\r\n"
  }

  const ModelDisposition := "Content-Disposition: form-data; name=\"model\"\r\n\r\n"

  function FileDisposition(filename: string): string {
    "Content-Disposition: form-data; name=\"file\"; filename=\"" + filename + "\"\r\n"
  }

  const FileContentType := "Content-Type: " + FileMime + "\r\n\r\n"

  /** The bytes that come before the file data; none of them depend on it. */
  function Preamble(utf8: string -> Bytes, boundary: string, model: string, filename: string): Bytes {
    utf8(Delimiter(boundary)) + utf8(ModelDisposition) + utf8(model + "\r\n")
    + utf8(Delimiter(boundary)) + utf8(FileDisposition(filename)) + utf8(FileContentType)
  }

  /** The bytes that come after the file data. */
  function Epilogue(utf8: string -> Bytes, boundary: string): Bytes {
    utf8("\r\n") + utf8(CloseDelimiter(boundary))
  }

  /** The body `createMultipartBody` returns for the given file contents. */
  function Body(utf8: string -> Bytes, boundary: string, model: string, filename: string, fileData: Bytes): Bytes {
    Preamble(utf8, boundary, model, filename) + fileData + Epilogue(utf8, boundary)
  }

  /** `createMultipartBody`: appends each piece to a buffer in turn. The file
      is read after the model field is written; a read error is thrown and
      the partial buffer dropped. */
  method CreateMultipartBody(utf8: string -> Bytes, readFile: AudioUrl -> Result<Bytes, IoError>,
                             boundary: string, model: string, fileUrl: AudioUrl)
    returns (r: Result<Bytes, IoError>)
    ensures readFile(fileUrl).Failure? ==> r == Failure(readFile(fileUrl).error)
    ensures readFile(fileUrl).Success? ==>
      r == Success(Body(utf8, boundary, model, fileUrl.lastPathComponent, readFile(fileUrl).value))
  {
    var body: Bytes := [];
    body := body + utf8(Delimiter(boundary));
    body := body + utf8(ModelDisposition);
    body := body + utf8(model + "\r\n");

    var filename := fileUrl.lastPathComponent;
    var fileData :- readFile(fileUrl);

    body := body + utf8(Delimiter(boundary));
    body := body + utf8(FileDisposition(filename));
    body := body + utf8(FileContentType);
    assert body == Preamble(utf8, boundary, model, filename);
    body := body + fileData;
    body := body + utf8("\r\n");
    body := body + utf8(CloseDelimiter(boundary));
    assert body == Preamble(utf8, boundary, model, filename) + fileData + Epilogue(utf8, boundary);
    return Success(body);
  }

  /** Inverse of `Body`: recovers the file bytes from a body built for the
      same boundary, model and filename. */
  function FileData(utf8: string -> Bytes, boundary: string, model: string, filename: string, body: Bytes): Option<Bytes> {
    var pre := Preamble(utf8, boundary, model, filename);
    var post := Epilogue(utf8, boundary);
    if |pre| + |post| <= |body| && body[..|pre|] == pre && body[|body| - |post|..] == post
    then Some(body[|pre|..|body| - |post|])
    else None
  }

  /** The file bytes are carried verbatim: they can be cut back out of the
      body, whatever they contain. */
  lemma {:induction false} FileDataRoundTrip(utf8: string -> Bytes, boundary: string, model: string, filename: string, fileData: Bytes)
    ensures FileData(utf8, boundary, model, filename, Body(utf8, boundary, model, filename, fileData)) == Some(fileData)
  {
    var pre := Preamble(utf8, boundary, model, filename);
    var post := Epilogue(utf8, boundary);
    var body := pre + fileData + post;
    assert body[..|pre|] == pre;
    assert body[|body| - |post|..] == post;
    assert body[|pre|..|body| - |post|] == fileData;
  }

  /** The body opens with the first delimiter and ends with the close
      delimiter. */
  lemma {:induction false} BodyFraming(utf8: string -> Bytes, boundary: string, model: string, filename: string, fileData: Bytes)
    ensures var body := Body(utf8, boundary, model, filename, fileData);
      var open := utf8(Delimiter(boundary));
      var close := utf8(CloseDelimiter(boundary));
      |open| + |close| <= |body| && body[..|open|] == open && body[|body| - |close|..] == close
  {
    var body := Body(utf8, boundary, model, filename, fileData);
    var open := utf8(Delimiter(boundary));
    var close := utf8(CloseDelimiter(boundary));
    var rest := utf8(ModelDisposition) + utf8(model + "\r\n")
      + utf8(Delimiter(boundary)) + utf8(FileDisposition(filename)) + utf8(FileContentType)
      + fileData + utf8("\r\n");
    assert body == open + rest + close;
    assert body[..|open|] == open;
    assert body[|body| - |close|..] == close;
  }

  /** Two bodies for the same boundary, model and filename are equal exactly
      when the files are: the layout loses nothing. */
  lemma {:induction false} BodyInjective(utf8: string -> Bytes, boundary: string, model: string, filename: string, a: Bytes, b: Bytes)
    ensures Body(utf8, boundary, model, filename, a) == Body(utf8, boundary, model, filename, b) <==> a == b
  {
    if Body(utf8, boundary, model, filename, a) == Body(utf8, boundary, model, filename, b) {
      FileDataRoundTrip(utf8, boundary, model, filename, a);
      FileDataRoundTrip(utf8, boundary, model, filename, b);
    }
  }
}
