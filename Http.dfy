/** Types shared by the network-backed clients, and the Foundation services the
    model does not look inside (text encodings, file reads, the URL session). */
module Http {
  import opened Wrappers

  newtype byte = x: int | 0 <= x < 256

  /** `Data`. */
  type Bytes = seq<byte>

  /** A file URL produced by the recorder. Only its last path component is
      used by the clients; the path itself is opaque. */
  datatype AudioUrl = AudioUrl(path: string, lastPathComponent: string)

  /** The error `Data(contentsOf:)` throws. */
  datatype IoError = IoError(code: int)

  /** `URLError`; `URLError(.unknown)` is the one the retry loop creates itself. */
  datatype NetError = UnknownUrlError | UrlError(code: int)

  /** The error `JSONDecoder.decode` throws. */
  datatype DecodeError = DecodeError(description: string)

  /** A `URLResponse`, which may or may not be an `HTTPURLResponse`. */
  datatype Response = HttpResponse(statusCode: int) | NonHttpResponse

  datatype Request = Request(url: string, httpMethod: string, headers: map<string, string>, body: Bytes)

  /** What one call of `URLSession.data(for:)` does: deliver a body and a
      response, or throw. */
  datatype TransportOutcome = Delivered(data: Bytes, response: Response) | Failed(error: NetError)

  /** The platform functions the clients call. `transport(r, k)` is the outcome
      of the k-th attempt (from 0) at sending request `r`. */
  datatype Platform = Platform(
    utf8Encode: string -> Bytes,
    utf8Decode: Bytes -> Option<string>,
    base64Encode: Bytes -> string,
    readFile: AudioUrl -> Result<Bytes, IoError>,
    transport: (Request, nat) -> TransportOutcome)

  /** Everything a cloud client can throw: its own three cases
      (`missingApiKey`, `invalidResponse`, `server`) and the errors of the
      Foundation calls it lets propagate. */
  datatype ClientError =
    | MissingApiKey
    | InvalidResponse
    | Server(message: string)
    | Transport(netError: NetError)
    | FileRead(ioError: IoError)
    | Decoding(decodeError: DecodeError)
}
