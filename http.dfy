/** The slice of HTTP that the three services use: methods, bodies, responses and handler outcomes. */
module Http {

  import opened Wrappers

  /** An octet (Rust's `u8`). */
  newtype byte = b: int | 0 <= b < 256

  /** The request methods hyper knows by name, and any other token. */
  datatype Method = GET | POST | PUT | DELETE | HEAD | OPTIONS | CONNECT | PATCH | TRACE | Extension(token: string)

  /** A response body: `Body::empty()`, a text, or raw bytes. */
  datatype Body = Empty | Text(text: string) | Bytes(data: seq<byte>)

  datatype Response = Response(status: nat, body: Body)

  /** Status codes of RFC 9110: 200 (section 15.3.1), 404 (section 15.5.5), 422 (section 15.5.21). */
  const OK: nat := 200
  const NOT_FOUND: nat := 404
  const UNPROCESSABLE_ENTITY: nat := 422

  /** The kinds of `std::io::Error` the services can meet. */
  datatype IoError = NotFound | AlreadyExists | Other(message: string)

  /** What a handler's future resolves to: a response, an I/O error, or a panic. */
  datatype Outcome = Respond(response: Response) | Fail(error: IoError) | Panic(message: string)

  /** An inbound request; the body type differs between services. */
  datatype Request<B> = Request(httpMethod: Method, path: string, query: Option<string>, body: B)

  /** `Response::new(body)`: status 200. */
  function OkResponse(body: Body): Response {
    Response(OK, body)
  }

  /** `str::starts_with`. */
  predicate StartsWith(s: string, prefix: string) {
    |prefix| <= |s| && s[..|prefix|] == prefix
  }
}
